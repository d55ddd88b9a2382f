/** One source line at a time, at the full operand width: each lemma extends a run of lines by one line of the
    given form and says what the line leaves behind. */
module MilSteps {
  import opened Bits
  import opened BitMemory
  import opened Registers
  import opened Machine
  import opened Mil
  import opened Footprint
  import opened Simulation
  import opened MilRun

  /** n lines have led from c0 to c, and the program can go on. */
  ghost predicate Running(p: Program, c0: Mil, c: Mil, n: nat, g: Region) {
    Leads(p, c0, c, n, g) && !c.halted && Guards(g, p) && c.cp == 0
  }

  lemma Then(p: Program, c0: Mil, c: Mil, n: nat, g: Region, d: Mil)
    requires Running(p, c0, c, n, g) && Ready(p, c, DEPTH, g) && Execute(p, c) == d && d.cp == 0
    ensures Leads(p, c0, d, n + 1, g)
    ensures !d.halted ==> Running(p, c0, d, n + 1, g)
  {
    hide Ready, Execute, Leads, Guards;
    LeadsOne(p, c, g);
    LeadsOn(p, c0, c, Execute(p, c), n, 1, g);
  }

  lemma StartRun(p: Program, c: Mil, g: Region)
    requires !c.halted && Guards(g, p) && c.cp == 0
    ensures Running(p, c, c, 0, g)
  {
    hide Guards;
  }

  lemma ThenLabel(p: Program, c0: Mil, c: Mil, n: nat, g: Region) returns (d: Mil)
    requires Running(p, c0, c, n, g) && c.pc < |p| && p[c.pc].Label?
    ensures d == c.(pc := c.pc + 1) && Running(p, c0, d, n + 1, g)
  {
    hide Leads, Guards;
    d := c.(pc := c.pc + 1);
    Then(p, c0, c, n, g, d);
  }

  lemma ThenLitX(p: Program, c0: Mil, c: Mil, n: nat, g: Region, v: Word) returns (d: Mil)
    requires Running(p, c0, c, n, g) && c.pc < |p| && p[c.pc] == Lit(v, X)
    ensures d == c.(pc := c.pc + 1, t := v, x := v) && Running(p, c0, d, n + 1, g)
  {
    hide Leads, Guards;
    d := c.(pc := c.pc + 1, t := v, x := v);
    Then(p, c0, c, n, g, d);
  }

  lemma ThenLitY(p: Program, c0: Mil, c: Mil, n: nat, g: Region, v: Word) returns (d: Mil)
    requires Running(p, c0, c, n, g) && c.pc < |p| && p[c.pc] == Lit(v, Y)
    ensures d == c.(pc := c.pc + 1, t := v, y := v) && Running(p, c0, d, n + 1, g)
  {
    hide Leads, Guards;
    d := c.(pc := c.pc + 1, t := v, y := v);
    Then(p, c0, c, n, g, d);
  }

  lemma ThenLitFA(p: Program, c0: Mil, c: Mil, n: nat, g: Region, v: Word) returns (d: Mil)
    requires Running(p, c0, c, n, g) && c.pc < |p| && p[c.pc] == Lit(v, FA)
    ensures d == c.(pc := c.pc + 1, fa := v) && Running(p, c0, d, n + 1, g)
  {
    hide Leads, Guards;
    d := c.(pc := c.pc + 1, fa := v);
    Then(p, c0, c, n, g, d);
  }

  lemma ThenLitFB(p: Program, c0: Mil, c: Mil, n: nat, g: Region, v: Word) returns (d: Mil)
    requires Running(p, c0, c, n, g) && c.pc < |p| && p[c.pc] == Lit(v, FB)
    ensures d == c.(pc := c.pc + 1, fb := v) && Running(p, c0, d, n + 1, g)
  {
    hide Leads, Guards;
    d := c.(pc := c.pc + 1, fb := v);
    Then(p, c0, c, n, g, d);
  }

  lemma ThenStoreF(p: Program, c0: Mil, c: Mil, n: nat, g: Region, k: nat) returns (d: Mil)
    requires Running(p, c0, c, n, g) && c.pc < |p| && p[c.pc] == StoreF(k) && k < 16
    ensures d == c.(pc := c.pc + 1, pads := c.pads[k := Pad(c.fa, c.fb)]) && Running(p, c0, d, n + 1, g)
  {
    hide Leads, Guards;
    d := c.(pc := c.pc + 1, pads := c.pads[k := Pad(c.fa, c.fb)]);
    Then(p, c0, c, n, g, d);
  }

  lemma ThenXch(p: Program, c0: Mil, c: Mil, n: nat, g: Region, a: nat, b: nat) returns (d: Mil)
    requires Running(p, c0, c, n, g) && c.pc < |p| && p[c.pc] == Xch(a, b) && a < 16 && b < 16
    ensures d == c.(pc := c.pc + 1, fa := c.pads[a].left, fb := c.pads[a].right, pads := c.pads[b := Pad(c.fa, c.fb)])
    ensures Running(p, c0, d, n + 1, g)
  {
    hide Leads, Guards;
    d := c.(pc := c.pc + 1, fa := c.pads[a].left, fb := c.pads[a].right, pads := c.pads[b := Pad(c.fa, c.fb)]);
    Then(p, c0, c, n, g, d);
  }

  lemma ThenLoadLeftX(p: Program, c0: Mil, c: Mil, n: nat, g: Region, k: nat) returns (d: Mil)
    requires Running(p, c0, c, n, g) && c.pc < |p| && p[c.pc] == LoadPad(k, false, X) && k < 16
    ensures d == c.(pc := c.pc + 1, x := c.pads[k].left) && Running(p, c0, d, n + 1, g)
  {
    hide Leads, Guards;
    d := c.(pc := c.pc + 1, x := c.pads[k].left);
    Then(p, c0, c, n, g, d);
  }

  lemma ThenLoadLeftY(p: Program, c0: Mil, c: Mil, n: nat, g: Region, k: nat) returns (d: Mil)
    requires Running(p, c0, c, n, g) && c.pc < |p| && p[c.pc] == LoadPad(k, false, Y) && k < 16
    ensures d == c.(pc := c.pc + 1, y := c.pads[k].left) && Running(p, c0, d, n + 1, g)
  {
    hide Leads, Guards;
    d := c.(pc := c.pc + 1, y := c.pads[k].left);
    Then(p, c0, c, n, g, d);
  }

  lemma ThenLoadRightX(p: Program, c0: Mil, c: Mil, n: nat, g: Region, k: nat) returns (d: Mil)
    requires Running(p, c0, c, n, g) && c.pc < |p| && p[c.pc] == LoadPad(k, true, X) && k < 16
    ensures d == c.(pc := c.pc + 1, x := c.pads[k].right) && Running(p, c0, d, n + 1, g)
  {
    hide Leads, Guards;
    d := c.(pc := c.pc + 1, x := c.pads[k].right);
    Then(p, c0, c, n, g, d);
  }

  lemma ThenStoreLeftX(p: Program, c0: Mil, c: Mil, n: nat, g: Region, k: nat) returns (d: Mil)
    requires Running(p, c0, c, n, g) && c.pc < |p| && p[c.pc] == StorePad(X, k, false) && k < 16
    ensures d == c.(pc := c.pc + 1, pads := c.pads[k := c.pads[k].(left := c.x)]) && Running(p, c0, d, n + 1, g)
  {
    hide Leads, Guards;
    d := c.(pc := c.pc + 1, pads := c.pads[k := c.pads[k].(left := c.x)]);
    Then(p, c0, c, n, g, d);
  }

  lemma ThenStoreLeftT(p: Program, c0: Mil, c: Mil, n: nat, g: Region, k: nat) returns (d: Mil)
    requires Running(p, c0, c, n, g) && c.pc < |p| && p[c.pc] == StorePad(T, k, false) && k < 16
    ensures d == c.(pc := c.pc + 1, pads := c.pads[k := c.pads[k].(left := c.t)]) && Running(p, c0, d, n + 1, g)
  {
    hide Leads, Guards;
    d := c.(pc := c.pc + 1, pads := c.pads[k := c.pads[k].(left := c.t)]);
    Then(p, c0, c, n, g, d);
  }

  lemma ThenStoreRightX(p: Program, c0: Mil, c: Mil, n: nat, g: Region, k: nat) returns (d: Mil)
    requires Running(p, c0, c, n, g) && c.pc < |p| && p[c.pc] == StorePad(X, k, true) && k < 16
    ensures d == c.(pc := c.pc + 1, pads := c.pads[k := c.pads[k].(right := c.x)]) && Running(p, c0, d, n + 1, g)
  {
    hide Leads, Guards;
    d := c.(pc := c.pc + 1, pads := c.pads[k := c.pads[k].(right := c.x)]);
    Then(p, c0, c, n, g, d);
  }

  lemma ThenStoreRightY(p: Program, c0: Mil, c: Mil, n: nat, g: Region, k: nat) returns (d: Mil)
    requires Running(p, c0, c, n, g) && c.pc < |p| && p[c.pc] == StorePad(Y, k, true) && k < 16
    ensures d == c.(pc := c.pc + 1, pads := c.pads[k := c.pads[k].(right := c.y)]) && Running(p, c0, d, n + 1, g)
  {
    hide Leads, Guards;
    d := c.(pc := c.pc + 1, pads := c.pads[k := c.pads[k].(right := c.y)]);
    Then(p, c0, c, n, g, d);
  }

  lemma ThenStoreRightT(p: Program, c0: Mil, c: Mil, n: nat, g: Region, k: nat) returns (d: Mil)
    requires Running(p, c0, c, n, g) && c.pc < |p| && p[c.pc] == StorePad(T, k, true) && k < 16
    ensures d == c.(pc := c.pc + 1, pads := c.pads[k := c.pads[k].(right := c.t)]) && Running(p, c0, d, n + 1, g)
  {
    hide Leads, Guards;
    d := c.(pc := c.pc + 1, pads := c.pads[k := c.pads[k].(right := c.t)]);
    Then(p, c0, c, n, g, d);
  }

  lemma ThenSumToT(p: Program, c0: Mil, c: Mil, n: nat, g: Region) returns (d: Mil)
    requires Running(p, c0, c, n, g) && c.pc < |p| && p[c.pc] == Move(SUM, T)
    ensures d == c.(pc := c.pc + 1, t := (c.x + c.y) % 0x100_0000) && Running(p, c0, d, n + 1, g)
  {
    hide Leads, Guards, Sum;
    FullWidth(c.x, c.y);
    d := c.(pc := c.pc + 1, t := (c.x + c.y) % 0x100_0000);
    Then(p, c0, c, n, g, d);
  }

  lemma ThenDiffToT(p: Program, c0: Mil, c: Mil, n: nat, g: Region) returns (d: Mil)
    requires Running(p, c0, c, n, g) && c.pc < |p| && p[c.pc] == Move(DIFF, T)
    ensures d == c.(pc := c.pc + 1, t := (c.x - c.y) % 0x100_0000) && Running(p, c0, d, n + 1, g)
  {
    hide Leads, Guards, Diff;
    FullWidth(c.x, c.y);
    d := c.(pc := c.pc + 1, t := (c.x - c.y) % 0x100_0000);
    Then(p, c0, c, n, g, d);
  }

  lemma ThenSumToFA(p: Program, c0: Mil, c: Mil, n: nat, g: Region) returns (d: Mil)
    requires Running(p, c0, c, n, g) && c.pc < |p| && p[c.pc] == Move(SUM, FA)
    ensures d == c.(pc := c.pc + 1, fa := (c.x + c.y) % 0x100_0000) && Running(p, c0, d, n + 1, g)
  {
    hide Leads, Guards, Sum;
    FullWidth(c.x, c.y);
    d := c.(pc := c.pc + 1, fa := (c.x + c.y) % 0x100_0000);
    Then(p, c0, c, n, g, d);
  }

  lemma ThenXToY(p: Program, c0: Mil, c: Mil, n: nat, g: Region) returns (d: Mil)
    requires Running(p, c0, c, n, g) && c.pc < |p| && p[c.pc] == Move(X, Y)
    ensures d == c.(pc := c.pc + 1, y := c.x) && Running(p, c0, d, n + 1, g)
  {
    hide Leads, Guards;
    d := c.(pc := c.pc + 1, y := c.x);
    Then(p, c0, c, n, g, d);
  }

  lemma ThenReadXUp(p: Program, c0: Mil, c: Mil, n: nat, g: Region, len: nat) returns (d: Mil)
    requires Running(p, c0, c, n, g) && c.pc < |p| && p[c.pc] == ReadBits(len, false, X, Counts(Inc, Stay))
    requires 1 <= len <= 24 && FieldWithin(c.fa, len, false, g.rd)
    ensures d == c.(pc := c.pc + 1, x := FieldValue(c.m, c.fa, len, false), fa := (c.fa + len) % 0x100_0000)
    ensures Running(p, c0, d, n + 1, g)
  {
    hide Leads, Guards, FieldValue, FieldWithin;
    d := c.(pc := c.pc + 1, x := FieldValue(c.m, c.fa, len, false), fa := (c.fa + len) % 0x100_0000);
    Then(p, c0, c, n, g, d);
  }

  lemma ThenReadX(p: Program, c0: Mil, c: Mil, n: nat, g: Region, len: nat) returns (d: Mil)
    requires Running(p, c0, c, n, g) && c.pc < |p| && p[c.pc] == ReadBits(len, false, X, Counts(Stay, Stay))
    requires 1 <= len <= 24 && FieldWithin(c.fa, len, false, g.rd)
    ensures d == c.(pc := c.pc + 1, x := FieldValue(c.m, c.fa, len, false)) && Running(p, c0, d, n + 1, g)
  {
    hide Leads, Guards, FieldValue, FieldWithin;
    d := c.(pc := c.pc + 1, x := FieldValue(c.m, c.fa, len, false));
    Then(p, c0, c, n, g, d);
  }

  lemma ThenReadY(p: Program, c0: Mil, c: Mil, n: nat, g: Region, len: nat) returns (d: Mil)
    requires Running(p, c0, c, n, g) && c.pc < |p| && p[c.pc] == ReadBits(len, false, Y, Counts(Stay, Stay))
    requires 1 <= len <= 24 && FieldWithin(c.fa, len, false, g.rd)
    ensures d == c.(pc := c.pc + 1, y := FieldValue(c.m, c.fa, len, false)) && Running(p, c0, d, n + 1, g)
  {
    hide Leads, Guards, FieldValue, FieldWithin;
    d := c.(pc := c.pc + 1, y := FieldValue(c.m, c.fa, len, false));
    Then(p, c0, c, n, g, d);
  }

  lemma ThenWriteXUp(p: Program, c0: Mil, c: Mil, n: nat, g: Region, len: nat) returns (d: Mil)
    requires Running(p, c0, c, n, g) && c.pc < |p| && p[c.pc] == WriteBits(len, X, Counts(Inc, Stay))
    requires 1 <= len <= 24 && FieldWithin(c.fa, len, false, g.wr)
    ensures d == c.(pc := c.pc + 1, m := WriteField(c.m, c.fa, len, c.x, false), fa := (c.fa + len) % 0x100_0000)
    ensures Running(p, c0, d, n + 1, g)
  {
    hide Leads, Guards, WriteField, FieldWithin;
    d := c.(pc := c.pc + 1, m := WriteField(c.m, c.fa, len, c.x, false), fa := (c.fa + len) % 0x100_0000);
    Then(p, c0, c, n, g, d);
  }

  lemma ThenWriteYUp(p: Program, c0: Mil, c: Mil, n: nat, g: Region, len: nat) returns (d: Mil)
    requires Running(p, c0, c, n, g) && c.pc < |p| && p[c.pc] == WriteBits(len, Y, Counts(Inc, Stay))
    requires 1 <= len <= 24 && FieldWithin(c.fa, len, false, g.wr)
    ensures d == c.(pc := c.pc + 1, m := WriteField(c.m, c.fa, len, c.y, false), fa := (c.fa + len) % 0x100_0000)
    ensures Running(p, c0, d, n + 1, g)
  {
    hide Leads, Guards, WriteField, FieldWithin;
    d := c.(pc := c.pc + 1, m := WriteField(c.m, c.fa, len, c.y, false), fa := (c.fa + len) % 0x100_0000);
    Then(p, c0, c, n, g, d);
  }

  lemma ThenWriteTUp(p: Program, c0: Mil, c: Mil, n: nat, g: Region, len: nat) returns (d: Mil)
    requires Running(p, c0, c, n, g) && c.pc < |p| && p[c.pc] == WriteBits(len, T, Counts(Inc, Stay))
    requires 1 <= len <= 24 && FieldWithin(c.fa, len, false, g.wr)
    ensures d == c.(pc := c.pc + 1, m := WriteField(c.m, c.fa, len, c.t, false), fa := (c.fa + len) % 0x100_0000)
    ensures Running(p, c0, d, n + 1, g)
  {
    hide Leads, Guards, WriteField, FieldWithin;
    d := c.(pc := c.pc + 1, m := WriteField(c.m, c.fa, len, c.t, false), fa := (c.fa + len) % 0x100_0000);
    Then(p, c0, c, n, g, d);
  }

  lemma ThenCountUp(p: Program, c0: Mil, c: Mil, n: nat, g: Region, k: nat) returns (d: Mil)
    requires Running(p, c0, c, n, g) && c.pc < |p| && p[c.pc] == CountBy(Counts(Inc, Stay), k) && 1 <= k < 32
    ensures d == c.(pc := c.pc + 1, fa := (c.fa + k) % 0x100_0000) && Running(p, c0, d, n + 1, g)
  {
    hide Leads, Guards;
    d := c.(pc := c.pc + 1, fa := (c.fa + k) % 0x100_0000);
    Then(p, c0, c, n, g, d);
  }

  lemma ThenCountDown(p: Program, c0: Mil, c: Mil, n: nat, g: Region, k: nat) returns (d: Mil)
    requires Running(p, c0, c, n, g) && c.pc < |p| && p[c.pc] == CountBy(Counts(Dec, Stay), k) && 1 <= k < 32
    ensures d == c.(pc := c.pc + 1, fa := (c.fa - k) % 0x100_0000) && Running(p, c0, d, n + 1, g)
  {
    hide Leads, Guards;
    d := c.(pc := c.pc + 1, fa := (c.fa - k) % 0x100_0000);
    Then(p, c0, c, n, g, d);
  }

  lemma ThenMonitor(p: Program, c0: Mil, c: Mil, n: nat, g: Region) returns (d: Mil)
    requires Running(p, c0, c, n, g) && c.pc < |p| && p[c.pc] == MonitorX
    ensures d == c.(pc := c.pc + 1, out := c.out + [c.x]) && Running(p, c0, d, n + 1, g)
  {
    hide Leads, Guards;
    d := c.(pc := c.pc + 1, out := c.out + [c.x]);
    Then(p, c0, c, n, g, d);
  }

  lemma ThenGoTo(p: Program, c0: Mil, c: Mil, n: nat, g: Region, l: nat) returns (d: Mil)
    requires Running(p, c0, c, n, g) && c.pc < |p| && p[c.pc] == GoTo(l) && Target(p, l) == l < |p|
    ensures d == c.(pc := l) && Running(p, c0, d, n + 1, g)
  {
    hide Leads, Guards;
    d := c.(pc := l);
    Then(p, c0, c, n, g, d);
  }

  lemma ThenCall(p: Program, c0: Mil, c: Mil, n: nat, g: Region, l: nat) returns (d: Mil)
    requires Running(p, c0, c, n, g) && c.pc < |p| && p[c.pc] == CallTo(l) && Target(p, l) == l < |p| && |c.rets| < 16
    ensures d == c.(pc := l, rets := c.rets + [c.pc + 1]) && Running(p, c0, d, n + 1, g)
  {
    hide Leads, Guards;
    d := c.(pc := l, rets := c.rets + [c.pc + 1]);
    Then(p, c0, c, n, g, d);
  }

  lemma ThenExit(p: Program, c0: Mil, c: Mil, n: nat, g: Region) returns (d: Mil)
    requires Running(p, c0, c, n, g) && c.pc < |p| && p[c.pc] == Exit && |c.rets| > 0
    ensures d == c.(pc := c.rets[|c.rets| - 1], rets := c.rets[..|c.rets| - 1]) && Running(p, c0, d, n + 1, g)
  {
    hide Leads, Guards;
    d := c.(pc := c.rets[|c.rets| - 1], rets := c.rets[..|c.rets| - 1]);
    Then(p, c0, c, n, g, d);
  }

  lemma ThenHalt(p: Program, c0: Mil, c: Mil, n: nat, g: Region) returns (d: Mil)
    requires Running(p, c0, c, n, g) && c.pc < |p| && p[c.pc] == HaltLine
    ensures d == c.(pc := c.pc + 1, halted := true) && Leads(p, c0, d, n + 1, g)
  {
    hide Leads, Guards;
    d := c.(pc := c.pc + 1, halted := true);
    Then(p, c0, c, n, g, d);
  }

  /** IF X EQL Y GO TO l. */
  lemma ThenIfEqual(p: Program, c0: Mil, c: Mil, n: nat, g: Region, l: nat) returns (d: Mil)
    requires Running(p, c0, c, n, g) && c.pc < |p|
    requires p[c.pc] == IfGoTo(Cond(XY(Eql), false), l) && Target(p, l) == l < |p|
    ensures d == c.(pc := if c.x == c.y then l else c.pc + 1) && Running(p, c0, d, n + 1, g)
  {
    hide Leads, Guards, Holds;
    EqualAtFullWidth(c);
    d := c.(pc := if c.x == c.y then l else c.pc + 1);
    Then(p, c0, c, n, g, d);
  }

  lemma EqualAtFullWidth(c: Mil)
    requires c.cp == 0
    ensures Holds(Cond(XY(Eql), false), c) == (c.x == c.y)
  {
    hide Masked;
    MaskedFull(c.x);
    MaskedFull(c.y);
  }

  lemma MaskedFull(v: nat)
    ensures Masked(v, 0) == v % 0x100_0000
    ensures v < 0x100_0000 ==> Masked(v, 0) == v
  {
    assert Width(0) == 24;
    hide Width;
  }

  /** At full width the function box adds and subtracts modulo 2^24. */
  lemma FullWidth(x: Word, y: Word)
    ensures Sum(x, y, 0) == (x + y) % 0x100_0000 && Diff(x, y, 0) == (x - y) % 0x100_0000
  {
    assert AllOnes(0) == 0xFF_FFFF && CPU(0) == 0;
    hide Masked, BcdAdd, BcdSub, AllOnes, Digits;
    MaskedFull(x);
    MaskedFull(y);
    MaskedFull(x + y);
    if x < y {
      MaskedFull(x + 0x100_0000 - y);
    }
  }
}
