/** The copy routine of the cold start loader, MOVE-B1500-DATA, wherever it stands in a program. */
module CopyLoop {
  import opened Bits
  import opened BitMemory
  import opened Registers
  import opened Machine
  import opened Mil
  import opened Footprint
  import opened Simulation
  import opened MilRun
  import AStack
  import Boot

  const MORE: Cond := Cond(FLZero(false), false)

  /** The routine stands at line b of p; `more` is its local label. The source descriptor is in FA and FL, the
      destination in scratchpad word 9. */
  predicate CopyAt(p: Program, b: nat, more: nat) {
    && b + 9 <= |p| && p[b].Label? && p[b + 1] == StorePad(T, 9, false)
    && p[b + 2] == Label(more) && Target(p, more) == b + 2
    && p[b + 3] == ReadBits(8, false, X, Counts(Inc, Dec)) && p[b + 4] == Xch(9, 8)
    && p[b + 5] == WriteBits(8, X, Counts(Inc, Stay))
    && p[b + 6] == Xch(8, 9) && p[b + 7] == IfGoTo(MORE, more) && p[b + 8] == Exit
  }

  /** Passes of the loop for a field length: it always makes one, and a last one for a part of an octet. */
  function Passes(fl: nat): (n: nat)
    ensures n >= 1
  {
    if fl <= 8 then 1 else 1 + Passes(fl - 8)
  }

  /** The loop moves exactly FL bits when FL is a positive multiple of eight, and only then. */
  lemma {:induction false} PassesExact(fl: nat)
    ensures 8 * Passes(fl) == fl <==> fl > 0 && fl % 8 == 0
    ensures fl > 0 ==> fl <= 8 * Passes(fl) < fl + 8
  {
    if fl > 8 {
      PassesExact(fl - 8);
    }
  }

  /** n octets copied from bit address a to bit address e. */
  function Copied(m: Mem, a: nat, e: nat, n: nat): (m': Mem)
    ensures |m'| == |m|
  {
    seq(|m|, i requires 0 <= i < |m| => if e <= i < e + 8 * n then BitAt(m, a + (i - e)) else m[i])
  }

  /** Reading a field and taking a bit of it gives the bit in memory. */
  lemma {:induction false} ReadBit(m: Mem, a: nat, n: nat, j: nat)
    requires j < n
    ensures Bit(ReadField(m, a, n, false), n - 1 - j) == BitAt(m, a + j)
  {
    var v := ReadField(m, a, n, false);
    assert v == 2 * ReadField(m, a, n - 1, false) + B(BitAt(m, FieldAddr(a, n - 1, false)));
    if j < n - 1 {
      ReadBit(m, a, n - 1, j);
      assert v / 2 == ReadField(m, a, n - 1, false);
    }
  }

  /** Writing what was read copies one octet. */
  lemma CopiesOctet(m: Mem, a: nat, e: nat)
    ensures WriteField(m, e, 8, ReadField(m, a, 8, false), false) == Copied(m, a, e, 1)
  {
    hide ReadField, Bit, BitAt;
    var v := ReadField(m, a, 8, false);
    var w, c := WriteField(m, e, 8, v, false), Copied(m, a, e, 1);
    forall i | 0 <= i < |m|
      ensures w[i] == c[i]
    {
      if e <= i < e + 8 {
        ReadBit(m, a, 8, i - e);
      }
    }
  }

  /** The destination does not start inside the source. */
  predicate ClearOf(a: nat, e: nat, n: nat) {
    e <= a || a + 8 * n <= e
  }

  lemma CopiesOn(m: Mem, a: nat, e: nat, n: nat)
    requires n > 0 && ClearOf(a, e, n)
    ensures Copied(Copied(m, a, e, 1), a + 8, e + 8, n - 1) == Copied(m, a, e, n)
  {
    var m1 := Copied(m, a, e, 1);
    forall i | 0 <= i < |m|
      ensures Copied(m1, a + 8, e + 8, n - 1)[i] == Copied(m, a, e, n)[i]
    {
      if e + 8 <= i < e + 8 * n {
        var k := a + (i - e);
        assert BitAt(m1, k) == BitAt(m, k);
      }
    }
  }

  // ----- the lines -----

  /** n lines have led from c0 to c. */
  ghost predicate Going(p: Program, c0: Mil, c: Mil, n: nat, g: Region) {
    Leads(p, c0, c, n, g) && !c.halted && Guards(g, p)
  }

  lemma Goes(p: Program, c0: Mil, c: Mil, n: nat, g: Region) returns (d: Mil)
    requires Going(p, c0, c, n, g) && !Execute(p, c).halted && LineOk(p, c, DEPTH) && LineWithin(p, c, g)
    ensures d == Execute(p, c) && Going(p, c0, d, n + 1, g)
  {
    hide Leads, Execute, Guards, LineOk, LineWithin;
    d := Execute(p, c);
    LeadsOne(p, c, g);
    LeadsOn(p, c0, c, d, n, 1, g);
  }

  lemma PassesLabel(p: Program, b: nat, more: nat, c0: Mil, c: Mil, n: nat, g: Region) returns (d: Mil)
    requires CopyAt(p, b, more) && Going(p, c0, c, n, g) && (c.pc == b || c.pc == b + 2)
    ensures Going(p, c0, d, n + 1, g) && d == c.(pc := c.pc + 1)
  {
    hide Leads, Guards;
    d := Goes(p, c0, c, n, g);
  }

  lemma SetsDestination(p: Program, b: nat, more: nat, c0: Mil, c: Mil, n: nat, g: Region) returns (d: Mil)
    requires CopyAt(p, b, more) && Going(p, c0, c, n, g) && c.pc == b + 1
    ensures Going(p, c0, d, n + 1, g) && d == c.(pc := b + 2, pads := c.pads[9 := c.pads[9].(left := c.t)])
  {
    hide Leads, Guards;
    d := Goes(p, c0, c, n, g);
  }

  lemma Reads(p: Program, b: nat, more: nat, c0: Mil, c: Mil, n: nat, g: Region) returns (d: Mil)
    requires CopyAt(p, b, more) && Going(p, c0, c, n, g) && c.pc == b + 3 && FieldWithin(c.fa, 8, false, g.rd)
    ensures Going(p, c0, d, n + 1, g)
    ensures d == c.(pc := b + 4, x := FieldValue(c.m, c.fa, 8, false), fa := (c.fa + 8) % 0x100_0000, fb := d.fb)
    ensures FL(d.fb) == if FL(c.fb) <= 8 then 0 else FL(c.fb) - 8
  {
    hide Leads, Guards, FieldWithin, FieldValue;
    d := Goes(p, c0, c, n, g);
  }

  lemma Exchanges(p: Program, b: nat, more: nat, c0: Mil, c: Mil, n: nat, g: Region) returns (d: Mil)
    requires CopyAt(p, b, more) && Going(p, c0, c, n, g) && (c.pc == b + 4 || c.pc == b + 6)
    ensures Going(p, c0, d, n + 1, g)
    ensures var from, to := if c.pc == b + 4 then 9 else 8, if c.pc == b + 4 then 8 else 9;
      d == c.(pc := c.pc + 1, fa := c.pads[from].left, fb := c.pads[from].right, pads := c.pads[to := Pad(c.fa, c.fb)])
  {
    hide Leads, Guards;
    d := Goes(p, c0, c, n, g);
  }

  lemma Writes(p: Program, b: nat, more: nat, c0: Mil, c: Mil, n: nat, g: Region) returns (d: Mil)
    requires CopyAt(p, b, more) && Going(p, c0, c, n, g) && c.pc == b + 5 && FieldWithin(c.fa, 8, false, g.wr)
    ensures Going(p, c0, d, n + 1, g)
    ensures d == c.(pc := b + 6, m := WriteField(c.m, c.fa, 8, c.x, false), fa := (c.fa + 8) % 0x100_0000)
  {
    hide Leads, Guards, FieldWithin, WriteField;
    d := Goes(p, c0, c, n, g);
  }

  lemma Tests(p: Program, b: nat, more: nat, c0: Mil, c: Mil, n: nat, g: Region) returns (d: Mil)
    requires CopyAt(p, b, more) && Going(p, c0, c, n, g) && c.pc == b + 7
    ensures Going(p, c0, d, n + 1, g) && d == c.(pc := if FL(c.fb) == 0 then b + 8 else b + 2)
  {
    hide Leads, Guards;
    d := Goes(p, c0, c, n, g);
  }

  lemma Returns(p: Program, b: nat, more: nat, c0: Mil, c: Mil, n: nat, g: Region) returns (d: Mil)
    requires CopyAt(p, b, more) && Going(p, c0, c, n, g) && c.pc == b + 8 && |c.rets| > 0
    ensures Going(p, c0, d, n + 1, g)
    ensures d == c.(pc := c.rets[|c.rets| - 1], rets := c.rets[..|c.rets| - 1])
  {
    hide Leads, Guards;
    d := Goes(p, c0, c, n, g);
  }

  // ----- the loop -----

  lemma OctetRead(m: Mem, a: Word)
    ensures FieldValue(m, a, 8, false) == ReadField(m, a, 8, false)
  {
  }

  /** One pass of the loop: six lines. */
  lemma OnePass(p: Program, b: nat, more: nat, c0: Mil, c: Mil, n: nat, g: Region) returns (d: Mil)
    requires CopyAt(p, b, more) && Going(p, c0, c, n, g) && c.pc == b + 2
    requires FieldWithin(c.fa, 8, false, g.rd) && FieldWithin(c.pads[9].left, 8, false, g.wr)
    ensures Going(p, c0, d, n + 6, g)
    ensures d.pc == (if FL(c.fb) <= 8 then b + 8 else b + 2) && d.m == Copied(c.m, c.fa, c.pads[9].left, 1)
    ensures d.fa == (c.fa + 8) % 0x100_0000 && d.pads[9].left == (c.pads[9].left + 8) % 0x100_0000
    ensures FL(d.fb) == (if FL(c.fb) <= 8 then 0 else FL(c.fb) - 8) && d.rets == c.rets && d.out == c.out
  {
    hide *;
    CopiesOctet(c.m, c.fa, c.pads[9].left);
    OctetRead(c.m, c.fa);
    var c1 := PassesLabel(p, b, more, c0, c, n, g);
    var c2 := Reads(p, b, more, c0, c1, n + 1, g);
    var c3 := Exchanges(p, b, more, c0, c2, n + 2, g);
    var c4 := Writes(p, b, more, c0, c3, n + 3, g);
    var c5 := Exchanges(p, b, more, c0, c4, n + 4, g);
    d := Tests(p, b, more, c0, c5, n + 5, g);
  }

  /** The bits of n octets from a lie in `where`. */
  ghost predicate OctetsIn(a: nat, n: nat, where: iset<int>) {
    FieldWithin(a, 8 * n, false, where)
  }

  lemma OctetsFirst(a: nat, n: nat, where: iset<int>)
    requires OctetsIn(a, n, where) && n > 0
    ensures FieldWithin(a, 8, false, where) && OctetsIn(a + 8, n - 1, where)
  {
    var b := a + 8;
    forall i: nat | i < 8 * (n - 1)
      ensures FieldAddr(b, i, false) in where
    {
      assert FieldAddr(b, i, false) == FieldAddr(a, i + 8, false);
    }
  }

  lemma PassesStep(fl: nat)
    ensures Passes(fl) == if fl <= 8 then 1 else 1 + Passes(fl - 8)
  {
  }

  /** The loop moves all its octets. */
  lemma {:induction false} Loops(p: Program, b: nat, more: nat, c0: Mil, c: Mil, n: nat, g: Region, k: nat)
    returns (d: Mil)
    requires CopyAt(p, b, more) && Going(p, c0, c, n, g) && c.pc == b + 2 && k == Passes(FL(c.fb))
    requires c.fa + 8 * k < 0x100_0000 && c.pads[9].left + 8 * k < 0x100_0000 && ClearOf(c.fa, c.pads[9].left, k)
    requires OctetsIn(c.fa, k, g.rd) && OctetsIn(c.pads[9].left, k, g.wr)
    ensures Going(p, c0, d, n + 6 * k, g) && d.pc == b + 8 && d.m == Copied(c.m, c.fa, c.pads[9].left, k)
    ensures d.fa == c.fa + 8 * k && d.pads[9].left == c.pads[9].left + 8 * k && FL(d.fb) == 0
    ensures d.rets == c.rets && d.out == c.out
    decreases k
  {
    hide *;
    PassesStep(FL(c.fb));
    OctetsFirst(c.fa, k, g.rd);
    OctetsFirst(c.pads[9].left, k, g.wr);
    d := OnePass(p, b, more, c0, c, n, g);
    if k > 1 {
      ClearNext(c.fa, c.pads[9].left, k);
      CopiesOn(c.m, c.fa, c.pads[9].left, k);
      d := Loops(p, b, more, c0, d, n + 6, g, k - 1);
    }
  }

  lemma ClearNext(a: nat, e: nat, k: nat)
    requires ClearOf(a, e, k) && k > 1
    ensures ClearOf(a + 8, e + 8, k - 1)
  {
  }

  lemma StartsGoing(p: Program, c: Mil, g: Region)
    requires !c.halted && Guards(g, p)
    ensures Going(p, c, c, 0, g)
  {
    hide Guards;
  }

  /** MOVE-B1500-DATA returns to its caller with Passes(FL) octets copied from FA to the address in T, bit for bit, no
      other bit changed, the destination address past the copy in scratchpad word 9 and FL zero. */
  lemma MovesData(p: Program, b: nat, more: nat, c: Mil, g: Region) returns (d: Mil)
    requires CopyAt(p, b, more) && c.pc == b && !c.halted && Guards(g, p) && |c.rets| > 0
    requires var k := Passes(FL(c.fb));
      && c.fa + 8 * k < 0x100_0000 && c.t + 8 * k < 0x100_0000 && ClearOf(c.fa, c.t, k)
      && OctetsIn(c.fa, k, g.rd) && OctetsIn(c.t, k, g.wr)
    ensures var k := Passes(FL(c.fb));
      && Leads(p, c, d, 6 * k + 3, g) && d.m == Copied(c.m, c.fa, c.t, k)
      && d.pads[9].left == c.t + 8 * k && d.fa == c.fa + 8 * k && FL(d.fb) == 0
      && d.pc == c.rets[|c.rets| - 1] && d.rets == c.rets[..|c.rets| - 1] && d.out == c.out
  {
    hide *;
    var k := Passes(FL(c.fb));
    StartsGoing(p, c, g);
    var c1 := PassesLabel(p, b, more, c, c, 0, g);
    var c2 := SetsDestination(p, b, more, c, c1, 1, g);
    var c3 := Loops(p, b, more, c, c2, 2, g, k);
    d := Returns(p, b, more, c, c3, 6 * k + 2, g);
    GoingMeans(p, c, d, 6 * k + 3, g);
  }

  lemma GoingMeans(p: Program, c0: Mil, c: Mil, n: nat, g: Region)
    requires Going(p, c0, c, n, g)
    ensures Leads(p, c0, c, n, g) && !c.halted
  {
  }

  /** The same on the machine: the routine called with a descriptor returns with the octets copied. */
  lemma MachineMovesData(p: Program, b: nat, more: nat, s: State, c: Mil, g: Region) returns (k: nat)
    requires Sim(p, s, c) && s.r.depth == 16
    requires CopyAt(p, b, more) && c.pc == b && !c.halted && Guards(g, p) && |c.rets| > 0
    requires var n := Passes(FL(c.fb));
      && c.fa + 8 * n < 0x100_0000 && c.t + 8 * n < 0x100_0000 && ClearOf(c.fa, c.t, n)
      && OctetsIn(c.fa, n, g.rd) && OctetsIn(c.t, n, g.wr)
    ensures var n, t := Passes(FL(c.fb)), Run(s, k);
      && t.m == Copied(s.m, c.fa, c.t, n) && t.r.pads[9].left == c.t + 8 * n && FL(t.r.fb) == 0
      && (exists a: nat :: a == c.rets[|c.rets| - 1] <= |p| && Fits(p) && t.r.mar == LineAddr(p, a))
  {
    hide *;
    var d := MovesData(p, b, more, c, g);
    Boot.DepthIs();
    SimRun(p, s, c, d, 6 * Passes(FL(c.fb)) + 3, g);
    k := MicroTotal(p, c, 6 * Passes(FL(c.fb)) + 3);
    SimMeans(p, s, c);
    SimMeans(p, Run(s, k), d);
  }

  lemma SimMeans(p: Program, s: State, c: Mil)
    requires Sim(p, s, c)
    ensures s.m == c.m && s.r.pads == c.pads && s.r.fb == c.fb && Fits(p) && c.pc <= |p| && s.r.mar == LineAddr(p, c.pc)
  {
    hide Loaded, Fits, Quiet, AStack.RingHolds, ReturnAddrs, LineAddr, LinesOf;
  }
}
