/** The lines and jump targets of each routine of the S-CALC interpreter. */
module CalcLines {
  import opened Registers
  import opened Mil
  import opened CalcMicrocode

  lemma InitLines(start: Word, stack: Word)
    ensures var p := CalcSource(start, stack);
      && |p| == 108
      && p[0] == Label(0)
      && p[1] == Lit(start, FA)
      && p[2] == Lit(0, FB)
      && p[3] == StoreF(0)
      && p[4] == Lit(stack, FA)
      && p[5] == Lit(0, FB)
      && p[6] == StoreF(1)
      && p[7] == Xch(0, 1)
  {
  }

  lemma HaltLines(start: Word, stack: Word)
    ensures var p := CalcSource(start, stack);
      && |p| == 108
      && p[27] == Label(27)
      && p[28] == HaltLine
  {
  }

  lemma PushLines(start: Word, stack: Word)
    ensures var p := CalcSource(start, stack);
      && |p| == 108
      && p[29] == Label(29)
      && p[30] == ReadBits(24, false, X, Counts(Inc, Stay))
      && p[31] == Xch(1, 0)
      && p[32] == WriteBits(24, X, Counts(Inc, Stay))
      && p[33] == Xch(0, 1)
      && p[34] == GoTo(8)
      && Target(p, 8) == 8
  {
    JumpFinds(start, stack, 8);
  }

  lemma AddLines(start: Word, stack: Word)
    ensures var p := CalcSource(start, stack);
      && |p| == 108
      && p[35] == Label(35)
      && p[36] == Xch(1, 0)
      && p[37] == CountBy(Counts(Dec, Stay), 24)
      && p[38] == ReadBits(24, false, Y, Counts(Stay, Stay))
      && p[39] == CountBy(Counts(Dec, Stay), 24)
      && p[40] == ReadBits(24, false, X, Counts(Stay, Stay))
      && p[41] == Move(SUM, T)
      && p[42] == WriteBits(24, T, Counts(Inc, Stay))
      && p[43] == Xch(0, 1)
      && p[44] == GoTo(8)
      && Target(p, 8) == 8
  {
    JumpFinds(start, stack, 8);
  }

  lemma SubLines(start: Word, stack: Word)
    ensures var p := CalcSource(start, stack);
      && |p| == 108
      && p[45] == Label(45)
      && p[46] == Xch(1, 0)
      && p[47] == CountBy(Counts(Dec, Stay), 24)
      && p[48] == ReadBits(24, false, Y, Counts(Stay, Stay))
      && p[49] == CountBy(Counts(Dec, Stay), 24)
      && p[50] == ReadBits(24, false, X, Counts(Stay, Stay))
      && p[51] == Move(DIFF, T)
      && p[52] == WriteBits(24, T, Counts(Inc, Stay))
      && p[53] == Xch(0, 1)
      && p[54] == GoTo(8)
      && Target(p, 8) == 8
  {
    JumpFinds(start, stack, 8);
  }

  lemma MulLines(start: Word, stack: Word)
    ensures var p := CalcSource(start, stack);
      && |p| == 108
      && p[55] == Label(55)
      && p[56] == Xch(1, 0)
      && p[57] == CountBy(Counts(Dec, Stay), 24)
      && p[58] == ReadBits(24, false, Y, Counts(Stay, Stay))
      && p[59] == CountBy(Counts(Dec, Stay), 24)
      && p[60] == ReadBits(24, false, X, Counts(Stay, Stay))
      && p[61] == StorePad(X, 2, false)
      && p[62] == StorePad(Y, 2, true)
      && p[63] == Lit(0, X)
      && p[64] == StorePad(X, 3, false)
  {
  }

  lemma MulLoopLines(start: Word, stack: Word)
    ensures var p := CalcSource(start, stack);
      && |p| == 108
      && p[65] == Label(65)
      && p[66] == LoadPad(2, true, X)
      && p[67] == Lit(0, Y)
      && p[68] == IfGoTo(Cond(XY(Eql), false), 78)
      && p[69] == LoadPad(3, false, X)
      && p[70] == LoadPad(2, false, Y)
      && p[71] == Move(SUM, T)
      && p[72] == StorePad(T, 3, false)
      && p[73] == LoadPad(2, true, X)
      && p[74] == Lit(1, Y)
      && p[75] == Move(DIFF, T)
      && p[76] == StorePad(T, 2, true)
      && p[77] == GoTo(65)
      && p[78] == Label(78)
      && Target(p, 78) == 78
      && Target(p, 65) == 65
  {
    JumpFinds(start, stack, 78);
    JumpFinds(start, stack, 65);
  }

  lemma MulEndLines(start: Word, stack: Word)
    ensures var p := CalcSource(start, stack);
      && |p| == 108
      && p[78] == Label(78)
      && p[79] == LoadPad(3, false, X)
      && p[80] == WriteBits(24, X, Counts(Inc, Stay))
      && p[81] == Xch(0, 1)
      && p[82] == GoTo(8)
      && Target(p, 8) == 8
  {
    JumpFinds(start, stack, 8);
  }

  lemma PrintLines(start: Word, stack: Word)
    ensures var p := CalcSource(start, stack);
      && |p| == 108
      && p[83] == Label(83)
      && p[84] == Xch(1, 0)
      && p[85] == CountBy(Counts(Dec, Stay), 24)
      && p[86] == ReadBits(24, false, X, Counts(Stay, Stay))
      && p[87] == Xch(0, 1)
      && p[88] == MonitorX
      && p[89] == GoTo(8)
      && Target(p, 8) == 8
  {
    JumpFinds(start, stack, 8);
  }

  lemma DupLines(start: Word, stack: Word)
    ensures var p := CalcSource(start, stack);
      && |p| == 108
      && p[90] == Label(90)
      && p[91] == Xch(1, 0)
      && p[92] == CountBy(Counts(Dec, Stay), 24)
      && p[93] == ReadBits(24, false, X, Counts(Stay, Stay))
      && p[94] == WriteBits(24, X, Counts(Inc, Stay))
      && p[95] == WriteBits(24, X, Counts(Inc, Stay))
      && p[96] == Xch(0, 1)
      && p[97] == GoTo(8)
      && Target(p, 8) == 8
  {
    JumpFinds(start, stack, 8);
  }

  lemma SwapLines(start: Word, stack: Word)
    ensures var p := CalcSource(start, stack);
      && |p| == 108
      && p[98] == Label(98)
      && p[99] == Xch(1, 0)
      && p[100] == CountBy(Counts(Dec, Stay), 24)
      && p[101] == ReadBits(24, false, Y, Counts(Stay, Stay))
      && p[102] == CountBy(Counts(Dec, Stay), 24)
      && p[103] == ReadBits(24, false, X, Counts(Stay, Stay))
      && p[104] == WriteBits(24, Y, Counts(Inc, Stay))
      && p[105] == WriteBits(24, X, Counts(Inc, Stay))
      && p[106] == Xch(0, 1)
      && p[107] == GoTo(8)
      && Target(p, 8) == 8
  {
    JumpFinds(start, stack, 8);
  }
}
