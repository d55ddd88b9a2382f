/** The Gismo loop as it runs: one processor, saved process states and a while loop, proved against the rounds of the
    scheduler and, through them, against the solo runs. */
module GismoScheduler {
  import opened Bits
  import opened BitMemory
  import opened IoBus
  import opened Registers
  import opened Storage
  import opened Devices
  import opened RegisterUnit
  import opened CentralProcessor
  import opened Gismo
  import M = Machine
  import Footprint
  import Invariants
  import Boot

  // ----- overlaying the micro-store -----

  /** What clearing 0x400 bytes and copying the image leaves. */
  function Overlaid(d: seq<Octet>, img: seq<Octet>): (r: seq<Octet>)
    requires |img| <= |d|
    ensures |r| == |d|
  {
    seq(|d|, i requires 0 <= i < |d| => if i < |img| then img[i] else if i < 0x400 then 0 else d[i])
  }

  lemma OverlaidBits(d: seq<Octet>, img: seq<Octet>)
    requires |img| <= |d|
    ensures BitsOf(Overlaid(d, img)) == LoadInterp(BitsOf(d), BitsOf(img))
  {
    var r := Overlaid(d, img);
    forall i | 0 <= i < 8 * |d|
      ensures BitsOf(r)[i] == LoadInterp(BitsOf(d), BitsOf(img))[i]
    {
      ZeroBits(7 - i % 8);
    }
    hide Bit;
  }

  /** load_interp. */
  method LoadInterpreter(mem: Memory, img: seq<Octet>)
    requires |img| <= mem.data.Length
    modifies mem.data
    ensures mem.Contents() == LoadInterp(old(mem.Contents()), BitsOf(img))
  {
    hide Bit, LoadInterp, BitsOf;
    ghost var d := mem.data[..];
    var i := 0;
    while i < 0x400
      invariant 0 <= i <= 0x400
      invariant forall k :: 0 <= k < mem.data.Length ==> mem.data[k] == if k < i then 0 else d[k]
    {
      mem.WriteByte(i, 0);
      i := i + 1;
    }
    mem.LoadBytes(0, img);
    assert mem.data[..] == Overlaid(d, img);
    OverlaidBits(d, img);
  }

  // ----- saving and restoring -----

  method SaveState(cpu: Processor, p: Proc) returns (p': Proc)
    requires cpu.Valid()
    ensures p' == Save(cpu.State(), p)
  {
    var g := cpu.regs;
    p' := Proc(Regs(g.x, g.y, g.t, g.l, g.fa, g.fb, g.br, g.lr, g.mar, g.m, g.u, g.cp, g.stack[..], g.sp, g.depth,
                    g.pads[..], g.halted, g.lat), p.total + cpu.cycles);
  }

  method CopyStack(regs: RegisterFile, r: Regs)
    requires regs.Valid()
    modifies regs.stack, regs.pads
    ensures regs.stack[..] == r.stack && regs.pads[..] == r.pads
  {
    var i := 0;
    while i < 16
      invariant 0 <= i <= 16 && regs.pads[..i] == r.pads[..i]
    {
      regs.pads[i] := r.pads[i];
      i := i + 1;
    }
    i := 0;
    while i < 32
      invariant 0 <= i <= 32 && regs.stack[..i] == r.stack[..i] && regs.pads[..] == r.pads
    {
      regs.stack[i] := r.stack[i];
      i := i + 1;
    }
  }

  method RestoreData(g: RegisterFile, r: Regs)
    requires g.Valid()
    modifies g`x, g`y, g`t, g`l, g`fa, g`fb, g`br, g`lr
    ensures g.Value()
      == old(g.Value()).(x := r.x, y := r.y, t := r.t, l := r.l, fa := r.fa, fb := r.fb, br := r.br, lr := r.lr)
  {
    g.x, g.y, g.t, g.l := r.x, r.y, r.t, r.l;
    g.fa, g.fb, g.br, g.lr := r.fa, r.fb, r.br, r.lr;
  }

  method RestoreControl(g: RegisterFile, r: Regs)
    requires g.Valid()
    modifies g`mar, g`m, g`u, g`cp, g`sp, g`halted
    ensures g.Value() == old(g.Value()).(mar := r.mar, m := r.m, u := r.u, cp := r.cp, sp := r.sp, halted := r.halted)
  {
    g.mar, g.m, g.u := r.mar, r.m, r.u;
    g.cp, g.sp, g.halted := r.cp, r.sp, r.halted;
  }

  /** Copies the saved registers back. */
  method RestoreRegisters(g: RegisterFile, r: Regs)
    requires g.Valid()
    modifies g, g.stack, g.pads
    ensures g.Value() == r.(lat := old(g.lat), depth := old(g.depth))
  {
    RestoreData(g, r);
    RestoreControl(g, r);
    CopyStack(g, r);
  }

  method RestoreState(cpu: Processor, p: Proc)
    requires cpu.Valid()
    modifies cpu, cpu.regs, cpu.regs.stack, cpu.regs.pads
    ensures cpu.Valid() && cpu.State() == Restore(old(cpu.State()), p)
  {
    hide BusUnit.Valid, cpu.mem.Contents, cpu.io.Slots;
    RestoreRegisters(cpu.regs, p.r);
    cpu.cycles, cpu.out := 0, [];
  }

  /** A fresh register file. */
  method ResetRegisters(cpu: Processor)
    requires cpu.Valid()
    modifies cpu.regs, cpu.regs.stack, cpu.regs.pads
    ensures cpu.Valid() && cpu.State() == old(cpu.State()).(r := Fresh())
  {
    hide BusUnit.Valid, cpu.mem.Contents, cpu.io.Slots, Zeros, BlankPads;
    RestoreRegisters(cpu.regs, Fresh());
    cpu.regs.lat, cpu.regs.depth := NO_LATCHES, 16;
  }

  /** Overlays, restores and runs one process for a quantum. */
  method RunSlice(cpu: Processor, img: seq<Octet>, p: Proc, quantum: nat) returns (p': Proc)
    requires cpu.Valid() && |img| <= cpu.mem.data.Length && !p.r.halted
    modifies cpu, cpu.regs, cpu.regs.stack, cpu.regs.pads, cpu.mem.data, cpu.io`locked, cpu.io.controls[..]
    ensures cpu.Valid() && cpu.State() == Slice(old(cpu.State()), BitsOf(img), p, quantum) && p' == Save(cpu.State(), p)
  {
    hide BusUnit.Valid, cpu.mem.Contents, cpu.io.Slots, LoadInterp, Invariants.RunFor, BitsOf;
    LoadInterpreter(cpu.mem, img);
    RestoreState(cpu, p);
    cpu.Run(quantum);
    p' := SaveState(cpu, p);
  }

  // ----- the loop -----

  /** The system that the processor and the saved processes make up. */
  ghost function Current(cpu: Processor, a: Proc, b: Proc, printed: seq<Print>): System
    requires cpu.Valid()
    reads cpu, cpu.regs, cpu.regs.stack, cpu.regs.pads, cpu.mem.data, cpu.io, cpu.io.controls, cpu.io.controls[..]
  {
    System(cpu.State(), a, b, printed)
  }

  /** A slice of process A. */
  method TurnA(cpu: Processor, img: seq<Octet>, a: Proc, ghost b: Proc, printed: seq<Print>, quantum: nat)
    returns (a': Proc, printed': seq<Print>)
    requires cpu.Valid() && |img| <= cpu.mem.data.Length && !a.r.halted
    modifies cpu, cpu.regs, cpu.regs.stack, cpu.regs.pads, cpu.mem.data, cpu.io`locked, cpu.io.controls[..]
    ensures cpu.Valid()
    ensures Current(cpu, a', b, printed') == SliceA(old(Current(cpu, a, b, printed)), BitsOf(img), quantum)
  {
    hide BusUnit.Valid, Slice, BitsOf, cpu.mem.Contents, cpu.io.Slots, cpu.regs.Value, Save, Tagged;
    a' := RunSlice(cpu, img, a, quantum);
    printed' := printed + Tagged(true, cpu.out);
  }

  /** A slice of process B. */
  method TurnB(cpu: Processor, img: seq<Octet>, ghost a: Proc, b: Proc, printed: seq<Print>, quantum: nat)
    returns (b': Proc, printed': seq<Print>)
    requires cpu.Valid() && |img| <= cpu.mem.data.Length && !b.r.halted
    modifies cpu, cpu.regs, cpu.regs.stack, cpu.regs.pads, cpu.mem.data, cpu.io`locked, cpu.io.controls[..]
    ensures cpu.Valid()
    ensures Current(cpu, a, b', printed') == SliceB(old(Current(cpu, a, b, printed)), BitsOf(img), quantum)
  {
    hide BusUnit.Valid, Slice, BitsOf, cpu.mem.Contents, cpu.io.Slots, cpu.regs.Value, Save, Tagged;
    b' := RunSlice(cpu, img, b, quantum);
    printed' := printed + Tagged(false, cpu.out);
  }

  method ResetAll(cpu: Processor, ghost a: Proc, ghost b: Proc, ghost printed: seq<Print>)
    requires cpu.Valid()
    modifies cpu.regs, cpu.regs.stack, cpu.regs.pads
    ensures cpu.Valid() && Current(cpu, a, b, printed) == Reset(old(Current(cpu, a, b, printed)))
  {
    hide BusUnit.Valid, cpu.mem.Contents, cpu.io.Slots, cpu.regs.Value, Fresh;
    ResetRegisters(cpu);
  }

  lemma RoundIs(s: System, imgA: seq<bool>, imgB: seq<bool>, quantum: nat)
    ensures var s1 := if s.a.r.halted then s else SliceA(s, imgA, quantum);
      s1.b == s.b && Round(s, imgA, imgB, quantum) == if s1.b.r.halted then s1 else SliceB(s1, imgB, quantum)
  {
    hide Slice, Tagged;
  }

  lemma ReadyIs(cpu: M.State, m: Mem)
    requires cpu == Ready(m).cpu
    ensures System(cpu, Proc(Fresh(), 0), Proc(Fresh(), 0), []) == Ready(m) && !Fresh().halted
  {
  }

  /** Everything a halted process has printed and used is what its solo run prints and uses. */
  lemma AllPrinted(l: Load, quantum: nat, n: nat, i: nat, k: nat, ta: nat, tb: nat)
    requires Separate(After(l, quantum, n), l, i, k)
    requires After(l, quantum, n).a.r.halted && After(l, quantum, n).b.r.halted
    requires M.Run(SoloA(l), ta).r.halted && M.Run(SoloB(l), tb).r.halted
    ensures var s := After(l, quantum, n);
      && OutputOf(true, s.printed) == M.Run(SoloA(l), ta).out && s.a.total == M.Run(SoloA(l), ta).cycles
      && OutputOf(false, s.printed) == M.Run(SoloB(l), tb).out && s.b.total == M.Run(SoloB(l), tb).cycles
  {
    hide *;
    SeparateTracks(After(l, quantum, n), l, i, k);
    Along(SoloA(l), i, ta);
    Along(SoloB(l), k, tb);
  }

  /** The measure of the loop. */
  lemma Progress(l: Load, quantum: nat, n: nat, i: nat, k: nat, i': nat, k': nat, ta: nat, tb: nat)
    requires Separate(After(l, quantum, n), l, i, k) && quantum > 0
    requires !After(l, quantum, n).a.r.halted || !After(l, quantum, n).b.r.halted
    requires M.Run(SoloA(l), ta).r.halted && M.Run(SoloB(l), tb).r.halted
    requires i' >= i && (i' == i <==> After(l, quantum, n).a.r.halted || quantum == 0)
    requires k' >= k && (k' == k <==> After(l, quantum, n).b.r.halted || quantum == 0)
    ensures Left(i', ta) + Left(k', tb) < Left(i, ta) + Left(k, tb)
  {
    hide *;
    SeparateTracks(After(l, quantum, n), l, i, k);
    if !After(l, quantum, n).a.r.halted {
      StillGoing(SoloA(l), i, ta);
    }
    if !After(l, quantum, n).b.r.halted {
      StillGoing(SoloB(l), k, tb);
    }
    Shrinks(i, i', ta);
    Shrinks(k, k', tb);
  }

  /** Runs both processes to completion in slices of a quantum. Termination needs what TerminatesExactly says: a quantum
      of at least one, and solo runs that halt (here after ta and tb steps). Each process ends having printed and used
      exactly what it prints and uses alone. */
  method RunGismo(cpu: Processor, imgA: seq<Octet>, imgB: seq<Octet>, quantum: nat,
                  ghost l: Load, ghost ta: nat, ghost tb: nat)
    returns (a: Proc, b: Proc, printed: seq<Print>, ghost n: nat)
    requires cpu.Valid() && |imgA| <= cpu.mem.data.Length && |imgB| <= cpu.mem.data.Length
    requires cpu.State() == Ready(l.m).cpu && l.imgA == BitsOf(imgA) && l.imgB == BitsOf(imgB) && Proper(l)
    requires quantum > 0 && M.Run(SoloA(l), ta).r.halted && M.Run(SoloB(l), tb).r.halted
    modifies cpu, cpu.regs, cpu.regs.stack, cpu.regs.pads, cpu.mem.data, cpu.io`locked, cpu.io.controls[..]
    ensures cpu.Valid() && Current(cpu, a, b, printed) == After(l, quantum, n)
    ensures a.r.halted && b.r.halted
    ensures OutputOf(true, printed) == M.Run(SoloA(l), ta).out && OutputOf(false, printed) == M.Run(SoloB(l), tb).out
    ensures a.total == M.Run(SoloA(l), ta).cycles && b.total == M.Run(SoloB(l), tb).cycles
  {
    hide *;
    a, b, printed := Proc(Fresh(), 0), Proc(Fresh(), 0), [];
    ReadyIs(cpu.State(), l.m);
    CurrentIs(cpu, a, b, printed);
    ResetAll(cpu, a, b, printed);
    a, printed := TurnA(cpu, imgA, a, b, printed, quantum);
    ResetAll(cpu, a, b, printed);
    b, printed := TurnB(cpu, imgB, a, b, printed, quantum);
    n := 0;
    AfterStep(l, quantum, 0);
    StartIs(l, quantum);
    CurrentIs(cpu, a, b, printed);
    ghost var i, k := RoundsSeparate(l, quantum, 0);
    while !a.r.halted || !b.r.halted
      invariant cpu.Valid() && Current(cpu, a, b, printed) == After(l, quantum, n)
      invariant After(l, quantum, n).a == a && After(l, quantum, n).b == b
      invariant Separate(After(l, quantum, n), l, i, k)
      decreases Left(i, ta) + Left(k, tb)
    {
      ghost var s := After(l, quantum, n);
      ghost var i', k' := TurnInOrder(s, l, i, k, quantum);
      Progress(l, quantum, n, i, k, i', k', ta, tb);
      RoundIs(s, l.imgA, l.imgB, quantum);
      if !a.r.halted {
        a, printed := TurnA(cpu, imgA, a, b, printed, quantum);
        CurrentIs(cpu, a, b, printed);
      }
      if !b.r.halted {
        b, printed := TurnB(cpu, imgB, a, b, printed, quantum);
      }
      CurrentIs(cpu, a, b, printed);
      AfterStep(l, quantum, n + 1);
      i, k, n := i', k', n + 1;
    }
    CurrentIs(cpu, a, b, printed);
    AllPrinted(l, quantum, n, i, k, ta, tb);
  }

  lemma CurrentIs(cpu: Processor, a: Proc, b: Proc, printed: seq<Print>)
    requires cpu.Valid()
    ensures Current(cpu, a, b, printed) == System(cpu.State(), a, b, printed)
  {
    hide cpu.State, BusUnit.Valid;
  }
}
