/** Each trip round the FETCH loop of the S-FORT interpreter performs exactly one S-FORT instruction. */
module FortRefinement {
  import opened Bits
  import opened BitMemory
  import opened Registers
  import opened Mil
  import opened Footprint
  import opened Simulation
  import opened MilRun
  import opened MilSteps
  import opened FortMicrocode
  import opened FortLines
  import opened FortVm
  import opened SCode
  import opened Multiply

  // ----- decoding -----

  /** First line of the routine for each opcode. */
  function Handler(op: nat): nat {
    match op
    case 1 => DO_LOAD
    case 2 => DO_ADD
    case 3 => DO_SUB
    case 4 => DO_MUL
    case 5 => DO_MOV
    case 6 => DO_CMP
    case 7 => DO_BEQ
    case 8 => DO_BNE
    case 9 => DO_PRINT
    case _ => DO_HALT
  }

  lemma FetchLines(start: Word, k: nat)
    requires k <= 10
    ensures var p := FortSource(start);
      && |p| == 190 && p[3] == Label(3) && p[4] == ReadBits(8, false, X, Counts(Inc, Stay))
      && (k < 10 ==> p[5 + 2 * k] == Lit(k, Y) && p[6 + 2 * k] == IfGoTo(Cond(XY(Eql), false), Handler(k)))
      && p[25] == GoTo(70) && Target(p, 70) == 70
      && Target(p, Handler(k)) == Handler(k) < 190
  {
    hide Target;
    FetchLineAt(start, k);
    HandlerLabel(start, k);
    HandlerLabel(start, 0);
    JumpFinds(start, Handler(k));
    JumpFinds(start, 70);
    hide FortLine, FetchLine;
  }

  lemma FetchLineAt(start: Word, k: nat)
    requires k <= 10
    ensures FortLine(start, 3) == Label(3) && FortLine(start, 4) == ReadBits(8, false, X, Counts(Inc, Stay))
    ensures k < 10 ==> FortLine(start, 5 + 2 * k) == Lit(k, Y)
    ensures k < 10 ==> FortLine(start, 6 + 2 * k) == IfGoTo(Cond(XY(Eql), false), Handler(k))
    ensures FortLine(start, 25) == GoTo(70)
  {
  }

  lemma HandlerLabel(start: Word, op: nat)
    ensures Handler(op) < 190 && FortLine(start, Handler(op)) == Label(Handler(op)) && Handler(0) == 70
  {
  }

  lemma UnknownHalts(op: nat)
    requires op >= 10
    ensures Handler(op) == 70
  {
  }

  /** The chain of comparisons from opcode k on. */
  lemma {:induction false} Decodes(start: Word, c0: Mil, c: Mil, n: nat, g: Region, k: nat) returns (d: Mil, e: nat)
    requires Running(FortSource(start), c0, c, n, g) && k <= 10 && c.pc == 5 + 2 * k && k <= c.x
    ensures Running(FortSource(start), c0, d, e, g) && d == c.(pc := Handler(c.x), t := d.t, y := d.y)
    ensures e > n
    decreases 10 - k
  {
    hide *;
    var p := FortSource(start);
    FetchLines(start, k);
    if k == 10 {
      d := ThenGoTo(p, c0, c, n, g, 70);
      e := n + 1;
      UnknownHalts(c.x);
    } else {
      var c1 := ThenLitY(p, c0, c, n, g, k);
      d := ThenIfEqual(p, c0, c1, n + 1, g, Handler(k));
      e := n + 2;
      if c.x != k {
        d, e := Decodes(start, c0, d, n + 2, g, k + 1);
      }
    }
  }

  lemma ReadsOctet(p: Program, c0: Mil, c: Mil, n: nat, g: Region) returns (d: Mil)
    requires Running(p, c0, c, n, g) && c.pc < |p| && p[c.pc] == ReadBits(8, false, X, Counts(Inc, Stay))
    requires Readable(c.fa, 8, g.rd)
    ensures Running(p, c0, d, n + 1, g)
    ensures d == c.(pc := c.pc + 1, x := Octet8(c.m, c.fa), fa := Up(c.fa, 8))
  {
    hide Running, FieldWithin, FieldValue;
    d := ThenReadXUp(p, c0, c, n, g, 8);
  }

  lemma ReadsOctets16(p: Program, c0: Mil, c: Mil, n: nat, g: Region) returns (d: Mil)
    requires Running(p, c0, c, n, g) && c.pc < |p| && p[c.pc] == ReadBits(16, false, X, Counts(Inc, Stay))
    requires Readable(c.fa, 16, g.rd)
    ensures Running(p, c0, d, n + 1, g)
    ensures d == c.(pc := c.pc + 1, x := Octets16(c.m, c.fa), fa := Up(c.fa, 16))
  {
    hide Running, FieldWithin, FieldValue;
    d := ThenReadXUp(p, c0, c, n, g, 16);
  }

  /** From FETCH to the routine of the opcode at FA. */
  lemma Fetches(start: Word, c: Mil, g: Region) returns (d: Mil, e: nat)
    requires c.pc == 3 && !c.halted && c.cp == 0 && Guards(g, FortSource(start)) && Readable(c.fa, 8, g.rd)
    ensures Running(FortSource(start), c, d, e, g)
    ensures var op := Octet8(c.m, c.fa);
      d == c.(pc := Handler(op), x := op, fa := Up(c.fa, 8), t := d.t, y := d.y)
    ensures e > 0
  {
    hide *;
    var p := FortSource(start);
    FetchLines(start, 0);
    StartRun(p, c, g);
    var c1 := ThenLabel(p, c, c, 0, g);
    var c2 := ReadsOctet(p, c, c1, 1, g);
    d, e := Decodes(start, c, c2, 2, g, 0);
  }

  // ----- register access subroutines -----

  lemma SelIs(n: nat)
    ensures Sel(n) == (if n < 3 then n else 3)
  {
  }

  /** READ_REG leaves the value of the register numbered X in X and returns. */
  lemma ReadsReg(start: Word, c0: Mil, c: Mil, n: nat, g: Region) returns (d: Mil, e: nat)
    requires Running(FortSource(start), c0, c, n, g) && c.pc == 26 && |c.rets| > 0
    ensures Running(FortSource(start), c0, d, e, g)
    ensures d == c.(pc := c.rets[|c.rets| - 1], rets := c.rets[..|c.rets| - 1], x := c.pads[4 + Sel(c.x)].left,
                    t := d.t, y := d.y)
    ensures e > n
  {
    hide *;
    var p := FortSource(start);
    ReadRegLines(start);
    SelIs(c.x);
    var c1 := ThenLabel(p, c0, c, n, g);
    var c2 := ThenLitY(p, c0, c1, n + 1, g, 0);
    var c3 := ThenIfEqual(p, c0, c2, n + 2, g, 34);
    if c.x == 0 {
      d, e := LoadsAndReturns(start, c0, c3, n + 3, g, 4);
    } else {
      var c4 := ThenLitY(p, c0, c3, n + 3, g, 1);
      var c5 := ThenIfEqual(p, c0, c4, n + 4, g, 37);
      if c.x == 1 {
        d, e := LoadsAndReturns(start, c0, c5, n + 5, g, 5);
      } else {
        var c6 := ThenLitY(p, c0, c5, n + 5, g, 2);
        var c7 := ThenIfEqual(p, c0, c6, n + 6, g, 40);
        if c.x == 2 {
          d, e := LoadsAndReturns(start, c0, c7, n + 7, g, 6);
        } else {
          var c8 := ThenGoTo(p, c0, c7, n + 7, g, 43);
          d, e := LoadsAndReturns(start, c0, c8, n + 8, g, 7);
        }
      }
    }
  }

  /** The tail of READ_REG for scratchpad word k. */
  lemma LoadsAndReturns(start: Word, c0: Mil, c: Mil, n: nat, g: Region, k: nat) returns (d: Mil, e: nat)
    requires Running(FortSource(start), c0, c, n, g) && 4 <= k < 8 && c.pc == 34 + 3 * (k - 4) && |c.rets| > 0
    ensures Running(FortSource(start), c0, d, e, g)
    ensures d == c.(pc := c.rets[|c.rets| - 1], rets := c.rets[..|c.rets| - 1], x := c.pads[k].left)
    ensures e > n
  {
    hide *;
    var p := FortSource(start);
    ReadRegLines(start);
    var c1 := ThenLabel(p, c0, c, n, g);
    var c2 := ThenLoadLeftX(p, c0, c1, n + 1, g, k);
    d := ThenExit(p, c0, c2, n + 2, g);
    e := n + 3;
  }

  /** WRITE_REG stores scratchpad word 8 into the register numbered X and returns. */
  lemma WritesReg(start: Word, c0: Mil, c: Mil, n: nat, g: Region) returns (d: Mil, e: nat)
    requires Running(FortSource(start), c0, c, n, g) && c.pc == 46 && |c.rets| > 0
    ensures Running(FortSource(start), c0, d, e, g)
    ensures var k := 4 + Sel(c.x);
      d == c.(pc := c.rets[|c.rets| - 1], rets := c.rets[..|c.rets| - 1], x := c.pads[8].left,
              pads := c.pads[k := c.pads[k].(left := c.pads[8].left)], t := d.t, y := d.y)
    ensures e > n
  {
    hide *;
    var p := FortSource(start);
    WriteRegLines(start);
    SelIs(c.x);
    var c1 := ThenLabel(p, c0, c, n, g);
    var c2 := ThenLitY(p, c0, c1, n + 1, g, 0);
    var c3 := ThenIfEqual(p, c0, c2, n + 2, g, 54);
    if c.x == 0 {
      d, e := StoresAndReturns(start, c0, c3, n + 3, g, 4);
    } else {
      var c4 := ThenLitY(p, c0, c3, n + 3, g, 1);
      var c5 := ThenIfEqual(p, c0, c4, n + 4, g, 58);
      if c.x == 1 {
        d, e := StoresAndReturns(start, c0, c5, n + 5, g, 5);
      } else {
        var c6 := ThenLitY(p, c0, c5, n + 5, g, 2);
        var c7 := ThenIfEqual(p, c0, c6, n + 6, g, 62);
        if c.x == 2 {
          d, e := StoresAndReturns(start, c0, c7, n + 7, g, 6);
        } else {
          var c8 := ThenGoTo(p, c0, c7, n + 7, g, 66);
          d, e := StoresAndReturns(start, c0, c8, n + 8, g, 7);
        }
      }
    }
  }

  lemma StoresAndReturns(start: Word, c0: Mil, c: Mil, n: nat, g: Region, k: nat) returns (d: Mil, e: nat)
    requires Running(FortSource(start), c0, c, n, g) && 4 <= k < 8 && c.pc == 54 + 4 * (k - 4) && |c.rets| > 0
    ensures Running(FortSource(start), c0, d, e, g)
    ensures d == c.(pc := c.rets[|c.rets| - 1], rets := c.rets[..|c.rets| - 1], x := c.pads[8].left,
                    pads := c.pads[k := c.pads[k].(left := c.pads[8].left)])
    ensures e > n
  {
    hide *;
    var p := FortSource(start);
    WriteRegLines(start);
    var c1 := ThenLabel(p, c0, c, n, g);
    var c2 := ThenLoadLeftX(p, c0, c1, n + 1, g, 8);
    var c3 := ThenStoreLeftX(p, c0, c2, n + 2, g, k);
    d := ThenExit(p, c0, c3, n + 3, g);
    e := n + 4;
  }

  lemma Returned(rets: seq<nat>, r: nat)
    ensures var s := rets + [r]; s[|s| - 1] == r && s[..|s| - 1] == rets
  {
  }

  lemma Subroutines(start: Word)
    ensures var p := FortSource(start); |p| == 190 && Target(p, 26) == 26 && Target(p, 46) == 46
  {
    AddLines(start);
  }

  /** CALL READ_REG: X is replaced by the register it numbers. */
  lemma CallsRead(start: Word, c0: Mil, c: Mil, n: nat, g: Region) returns (d: Mil, e: nat)
    requires Running(FortSource(start), c0, c, n, g) && c.rets == []
    requires c.pc < 190 && FortSource(start)[c.pc] == CallTo(26)
    ensures Running(FortSource(start), c0, d, e, g)
    ensures d == c.(pc := c.pc + 1, x := c.pads[4 + Sel(c.x)].left, t := d.t, y := d.y)
    ensures e > n
  {
    hide *;
    Subroutines(start);
    Returned([], c.pc + 1);
    var c1 := ThenCall(FortSource(start), c0, c, n, g, 26);
    d, e := ReadsReg(start, c0, c1, n + 1, g);
  }

  /** CALL WRITE_REG: the register numbered X receives scratchpad word 8. */
  lemma CallsWrite(start: Word, c0: Mil, c: Mil, n: nat, g: Region) returns (d: Mil, e: nat)
    requires Running(FortSource(start), c0, c, n, g) && c.rets == []
    requires c.pc < 190 && FortSource(start)[c.pc] == CallTo(46)
    ensures Running(FortSource(start), c0, d, e, g)
    ensures var k := 4 + Sel(c.x);
      d == c.(pc := c.pc + 1, x := c.pads[8].left, pads := c.pads[k := c.pads[k].(left := c.pads[8].left)],
              t := d.t, y := d.y)
    ensures e > n
  {
    hide *;
    Subroutines(start);
    Returned([], c.pc + 1);
    var c1 := ThenCall(FortSource(start), c0, c, n, g, 46);
    d, e := WritesReg(start, c0, c1, n + 1, g);
  }

  // ----- multiplication by repeated addition -----

  /** The multiply loop makes exactly counter-many passes of 13 lines and leaves the product modulo 2^24. */
  lemma {:induction false} MultiplyLoop(start: Word, c0: Mil, c: Mil, n: nat, g: Region) returns (d: Mil, e: nat)
    requires Running(FortSource(start), c0, c, n, g) && c.pc == 120
    ensures Running(FortSource(start), c0, d, e, g)
    ensures d == c.(pc := 133, x := 0, y := 0, t := 0, pads := Multiplied(c.pads))
    ensures e == n + 13 * c.pads[2].right + 4
    decreases c.pads[2].right
  {
    hide *;
    var p := FortSource(start);
    MulLoopLines(start);
    var c1 := ThenLabel(p, c0, c, n, g);
    var c2 := ThenLoadRightX(p, c0, c1, n + 1, g, 2);
    var c3 := ThenLitY(p, c0, c2, n + 2, g, 0);
    d := ThenIfEqual(p, c0, c3, n + 3, g, 133);
    e := n + 4;
    if c.pads[2].right == 0 {
      NothingLeft(c.pads);
    } else {
      var c5 := MultiplyPass(start, c0, d, n + 4, g);
      PassKeepsProduct(c.pads, c5.pads);
      d, e := MultiplyLoop(start, c0, c5, n + 13, g);
    }
  }

  lemma MultiplyPass(start: Word, c0: Mil, c: Mil, n: nat, g: Region) returns (d: Mil)
    requires Running(FortSource(start), c0, c, n, g) && c.pc == 124 && c.pads[2].right > 0
    ensures Running(FortSource(start), c0, d, n + 9, g)
    ensures d == c.(pc := 120, x := c.pads[2].right, y := 1, t := d.t,
                    pads := c.pads[3 := c.pads[3].(left := (c.pads[3].left + c.pads[2].left) % 0x100_0000)]
                                  [2 := c.pads[2].(right := c.pads[2].right - 1)])
  {
    hide *;
    var p := FortSource(start);
    MulLoopLines(start);
    var c1 := ThenLoadLeftX(p, c0, c, n, g, 3);
    var c2 := ThenLoadLeftY(p, c0, c1, n + 1, g, 2);
    var c3 := ThenSumToT(p, c0, c2, n + 2, g);
    var c4 := ThenStoreLeftT(p, c0, c3, n + 3, g, 3);
    var c5 := ThenLoadRightX(p, c0, c4, n + 4, g, 2);
    var c6 := ThenLitY(p, c0, c5, n + 5, g, 1);
    var c7 := ThenDiffToT(p, c0, c6, n + 6, g);
    var c8 := ThenStoreRightT(p, c0, c7, n + 7, g, 2);
    d := ThenGoTo(p, c0, c8, n + 8, g, 120);
    assert (c6.x - 1) % 0x100_0000 == c.pads[2].right - 1;
  }
}
