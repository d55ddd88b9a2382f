/** The lines and jump targets of each routine of the S-FORT interpreter. */
module FortLines {
  import opened Registers
  import opened Mil
  import opened FortMicrocode

  lemma HaltLines(start: Word)
    ensures var p := FortSource(start);
      && |p| == 190
      && p[70] == Label(70)
      && p[71] == HaltLine
  {
  }

  lemma LoadLines(start: Word)
    ensures var p := FortSource(start);
      && |p| == 190
      && p[72] == Label(72)
      && p[73] == ReadBits(8, false, X, Counts(Inc, Stay))
      && p[74] == StorePad(X, 2, false)
      && p[75] == ReadBits(16, false, X, Counts(Inc, Stay))
      && p[76] == StorePad(X, 8, false)
      && p[77] == LoadPad(2, false, X)
      && p[78] == CallTo(46)
      && p[79] == GoTo(3)
      && Target(p, 46) == 46
      && Target(p, 3) == 3
  {
    JumpFinds(start, 46);
    JumpFinds(start, 3);
  }

  lemma AddLines(start: Word)
    ensures var p := FortSource(start);
      && |p| == 190
      && p[80] == Label(80)
      && p[81] == ReadBits(8, false, X, Counts(Inc, Stay))
      && p[82] == StorePad(X, 9, false)
      && p[83] == ReadBits(8, false, X, Counts(Inc, Stay))
      && p[84] == CallTo(26)
      && p[85] == StorePad(X, 3, false)
      && p[86] == ReadBits(8, false, X, Counts(Inc, Stay))
      && p[87] == CallTo(26)
      && p[88] == LoadPad(3, false, Y)
      && p[89] == Move(SUM, T)
      && p[90] == StorePad(T, 8, false)
      && p[91] == LoadPad(9, false, X)
      && p[92] == CallTo(46)
      && p[93] == GoTo(3)
      && Target(p, 26) == 26
      && Target(p, 46) == 46
      && Target(p, 3) == 3
  {
    JumpFinds(start, 26);
    JumpFinds(start, 46);
    JumpFinds(start, 3);
  }

  lemma SubLines(start: Word)
    ensures var p := FortSource(start);
      && |p| == 190
      && p[94] == Label(94)
      && p[95] == ReadBits(8, false, X, Counts(Inc, Stay))
      && p[96] == StorePad(X, 9, false)
      && p[97] == ReadBits(8, false, X, Counts(Inc, Stay))
      && p[98] == CallTo(26)
      && p[99] == StorePad(X, 3, false)
      && p[100] == ReadBits(8, false, X, Counts(Inc, Stay))
      && p[101] == CallTo(26)
      && p[102] == Move(X, Y)
      && p[103] == LoadPad(3, false, X)
      && p[104] == Move(DIFF, T)
      && p[105] == StorePad(T, 8, false)
      && p[106] == LoadPad(9, false, X)
      && p[107] == CallTo(46)
      && p[108] == GoTo(3)
      && Target(p, 26) == 26
      && Target(p, 46) == 46
      && Target(p, 3) == 3
  {
    JumpFinds(start, 26);
    JumpFinds(start, 46);
    JumpFinds(start, 3);
  }

  lemma MulLines(start: Word)
    ensures var p := FortSource(start);
      && |p| == 190
      && p[109] == Label(109)
      && p[110] == ReadBits(8, false, X, Counts(Inc, Stay))
      && p[111] == StorePad(X, 9, false)
      && p[112] == ReadBits(8, false, X, Counts(Inc, Stay))
      && p[113] == CallTo(26)
      && p[114] == StorePad(X, 2, false)
      && p[115] == ReadBits(8, false, X, Counts(Inc, Stay))
      && p[116] == CallTo(26)
      && p[117] == StorePad(X, 2, true)
      && p[118] == Lit(0, X)
      && p[119] == StorePad(X, 3, false)
      && p[120] == Label(120)
      && Target(p, 26) == 26
  {
    JumpFinds(start, 26);
  }

  lemma MulLoopLines(start: Word)
    ensures var p := FortSource(start);
      && |p| == 190
      && p[120] == Label(120)
      && p[121] == LoadPad(2, true, X)
      && p[122] == Lit(0, Y)
      && p[123] == IfGoTo(Cond(XY(Eql), false), 133)
      && p[124] == LoadPad(3, false, X)
      && p[125] == LoadPad(2, false, Y)
      && p[126] == Move(SUM, T)
      && p[127] == StorePad(T, 3, false)
      && p[128] == LoadPad(2, true, X)
      && p[129] == Lit(1, Y)
      && p[130] == Move(DIFF, T)
      && p[131] == StorePad(T, 2, true)
      && p[132] == GoTo(120)
      && p[133] == Label(133)
      && Target(p, 133) == 133
      && Target(p, 120) == 120
  {
    JumpFinds(start, 133);
    JumpFinds(start, 120);
  }

  lemma MulEndLines(start: Word)
    ensures var p := FortSource(start);
      && |p| == 190
      && p[133] == Label(133)
      && p[134] == LoadPad(3, false, X)
      && p[135] == StorePad(X, 8, false)
      && p[136] == LoadPad(9, false, X)
      && p[137] == CallTo(46)
      && p[138] == GoTo(3)
      && Target(p, 46) == 46
      && Target(p, 3) == 3
  {
    JumpFinds(start, 46);
    JumpFinds(start, 3);
  }

  lemma MovLines(start: Word)
    ensures var p := FortSource(start);
      && |p| == 190
      && p[139] == Label(139)
      && p[140] == ReadBits(8, false, X, Counts(Inc, Stay))
      && p[141] == StorePad(X, 2, false)
      && p[142] == ReadBits(8, false, X, Counts(Inc, Stay))
      && p[143] == CallTo(26)
      && p[144] == StorePad(X, 8, false)
      && p[145] == LoadPad(2, false, X)
      && p[146] == CallTo(46)
      && p[147] == GoTo(3)
      && Target(p, 26) == 26
      && Target(p, 46) == 46
      && Target(p, 3) == 3
  {
    JumpFinds(start, 26);
    JumpFinds(start, 46);
    JumpFinds(start, 3);
  }

  lemma CmpLines(start: Word)
    ensures var p := FortSource(start);
      && |p| == 190
      && p[148] == Label(148)
      && p[149] == ReadBits(8, false, X, Counts(Inc, Stay))
      && p[150] == CallTo(26)
      && p[151] == StorePad(X, 2, false)
      && p[152] == ReadBits(8, false, X, Counts(Inc, Stay))
      && p[153] == CallTo(26)
      && p[154] == LoadPad(2, false, Y)
      && p[155] == IfGoTo(Cond(XY(Eql), false), 159)
      && p[156] == Lit(1, X)
      && p[157] == StorePad(X, 1, false)
      && p[158] == GoTo(3)
      && p[159] == Label(159)
      && p[160] == Lit(0, X)
      && p[161] == StorePad(X, 1, false)
      && p[162] == GoTo(3)
      && Target(p, 26) == 26
      && Target(p, 159) == 159
      && Target(p, 3) == 3
  {
    JumpFinds(start, 26);
    JumpFinds(start, 159);
    JumpFinds(start, 3);
  }

  lemma BeqLines(start: Word)
    ensures var p := FortSource(start);
      && |p| == 190
      && p[163] == Label(163)
      && p[164] == LoadPad(1, false, X)
      && p[165] == Lit(0, Y)
      && p[166] == IfGoTo(Cond(XY(Eql), false), 169)
      && p[167] == CountBy(Counts(Inc, Stay), 16)
      && p[168] == GoTo(3)
      && p[169] == Label(169)
      && p[170] == ReadBits(16, false, X, Counts(Inc, Stay))
      && p[171] == Lit(start, Y)
      && p[172] == Move(SUM, FA)
      && p[173] == GoTo(3)
      && Target(p, 169) == 169
      && Target(p, 3) == 3
  {
    JumpFinds(start, 169);
    JumpFinds(start, 3);
  }

  lemma BneLines(start: Word)
    ensures var p := FortSource(start);
      && |p| == 190
      && p[174] == Label(174)
      && p[175] == LoadPad(1, false, X)
      && p[176] == Lit(0, Y)
      && p[177] == IfGoTo(Cond(XY(Eql), false), 182)
      && p[178] == ReadBits(16, false, X, Counts(Inc, Stay))
      && p[179] == Lit(start, Y)
      && p[180] == Move(SUM, FA)
      && p[181] == GoTo(3)
      && p[182] == Label(182)
      && p[183] == CountBy(Counts(Inc, Stay), 16)
      && p[184] == GoTo(3)
      && Target(p, 182) == 182
      && Target(p, 3) == 3
  {
    JumpFinds(start, 182);
    JumpFinds(start, 3);
  }

  lemma PrintLines(start: Word)
    ensures var p := FortSource(start);
      && |p| == 190
      && p[185] == Label(185)
      && p[186] == ReadBits(8, false, X, Counts(Inc, Stay))
      && p[187] == CallTo(26)
      && p[188] == MonitorX
      && p[189] == GoTo(3)
      && Target(p, 26) == 26
      && Target(p, 3) == 3
  {
    JumpFinds(start, 26);
    JumpFinds(start, 3);
  }

  lemma ReadRegLines(start: Word)
    ensures var p := FortSource(start);
      && |p| == 190
      && p[26] == Label(26)
      && p[27] == Lit(0, Y)
      && p[28] == IfGoTo(Cond(XY(Eql), false), 34)
      && p[29] == Lit(1, Y)
      && p[30] == IfGoTo(Cond(XY(Eql), false), 37)
      && p[31] == Lit(2, Y)
      && p[32] == IfGoTo(Cond(XY(Eql), false), 40)
      && p[33] == GoTo(43)
      && p[34] == Label(34)
      && p[35] == LoadPad(4, false, X)
      && p[36] == Exit
      && p[37] == Label(37)
      && p[38] == LoadPad(5, false, X)
      && p[39] == Exit
      && p[40] == Label(40)
      && p[41] == LoadPad(6, false, X)
      && p[42] == Exit
      && p[43] == Label(43)
      && p[44] == LoadPad(7, false, X)
      && p[45] == Exit
      && Target(p, 34) == 34
      && Target(p, 37) == 37
      && Target(p, 40) == 40
      && Target(p, 43) == 43
  {
    JumpFinds(start, 34);
    JumpFinds(start, 37);
    JumpFinds(start, 40);
    JumpFinds(start, 43);
  }

  lemma WriteRegLines(start: Word)
    ensures var p := FortSource(start);
      && |p| == 190
      && p[46] == Label(46)
      && p[47] == Lit(0, Y)
      && p[48] == IfGoTo(Cond(XY(Eql), false), 54)
      && p[49] == Lit(1, Y)
      && p[50] == IfGoTo(Cond(XY(Eql), false), 58)
      && p[51] == Lit(2, Y)
      && p[52] == IfGoTo(Cond(XY(Eql), false), 62)
      && p[53] == GoTo(66)
      && p[54] == Label(54)
      && p[55] == LoadPad(8, false, X)
      && p[56] == StorePad(X, 4, false)
      && p[57] == Exit
      && p[58] == Label(58)
      && p[59] == LoadPad(8, false, X)
      && p[60] == StorePad(X, 5, false)
      && p[61] == Exit
      && p[62] == Label(62)
      && p[63] == LoadPad(8, false, X)
      && p[64] == StorePad(X, 6, false)
      && p[65] == Exit
      && p[66] == Label(66)
      && p[67] == LoadPad(8, false, X)
      && p[68] == StorePad(X, 7, false)
      && p[69] == Exit
      && Target(p, 54) == 54
      && Target(p, 58) == 58
      && Target(p, 62) == 62
      && Target(p, 66) == 66
  {
    JumpFinds(start, 54);
    JumpFinds(start, 58);
    JumpFinds(start, 62);
    JumpFinds(start, 66);
  }
}
