/** The S-FORT interpreter, line by line, for S-code at bit address `start` (0x4000; 0x6000 in the Gismo variant). */
module FortMicrocode {
  import opened Registers
  import opened Mil
  import opened Simulation

  // Labels, numbered by the line that defines them.
  const INIT: nat := 0
  const FETCH: nat := 3
  const READ_REG: nat := 26
  const READ_REG_RR0: nat := 34
  const READ_REG_RR1: nat := 37
  const READ_REG_RR2: nat := 40
  const READ_REG_RR3: nat := 43
  const WRITE_REG: nat := 46
  const WRITE_REG_WR0: nat := 54
  const WRITE_REG_WR1: nat := 58
  const WRITE_REG_WR2: nat := 62
  const WRITE_REG_WR3: nat := 66
  const DO_HALT: nat := 70
  const DO_LOAD: nat := 72
  const DO_ADD: nat := 80
  const DO_SUB: nat := 94
  const DO_MUL: nat := 109
  const DO_MUL_FMULLOOP: nat := 120
  const DO_MUL_FMULDONE: nat := 133
  const DO_MOV: nat := 139
  const DO_CMP: nat := 148
  const DO_CMP_CMPEQ: nat := 159
  const DO_BEQ: nat := 163
  const DO_BEQ_BEQ_TAKE: nat := 169
  const DO_BNE: nat := 174
  const DO_BNE_BNE_SKIP: nat := 182
  const DO_PRINT: nat := 185

  const LINES: nat := 190
  const X_EQL_Y: Cond := Cond(XY(Eql), false)

  function FortLine(start: Word, i: nat): Line {
    if i < 26 then FetchLine(start, i)
    else if i < 46 then ReadRegLine(start, i)
    else if i < 70 then WriteRegLine(start, i)
    else if i < 94 then LoadAddLine(start, i)
    else if i < 109 then SubLine(start, i)
    else if i < 139 then MultiplyLine(start, i)
    else if i < 163 then MoveLine(start, i)
    else if i < 190 then BranchLine(start, i)
    else NopLine
  }

  function FetchLine(start: Word, i: nat): Line {
    match i
    case 0 => Label(INIT)
    case 1 => Lit(start, FA)
    case 2 => Lit(0, FB)
    case 3 => Label(FETCH)
    case 4 => ReadBits(8, false, X, Counts(Inc, Stay))
    case 5 => Lit(0, Y)
    case 6 => IfGoTo(X_EQL_Y, DO_HALT)
    case 7 => Lit(1, Y)
    case 8 => IfGoTo(X_EQL_Y, DO_LOAD)
    case 9 => Lit(2, Y)
    case 10 => IfGoTo(X_EQL_Y, DO_ADD)
    case 11 => Lit(3, Y)
    case 12 => IfGoTo(X_EQL_Y, DO_SUB)
    case 13 => Lit(4, Y)
    case 14 => IfGoTo(X_EQL_Y, DO_MUL)
    case 15 => Lit(5, Y)
    case 16 => IfGoTo(X_EQL_Y, DO_MOV)
    case 17 => Lit(6, Y)
    case 18 => IfGoTo(X_EQL_Y, DO_CMP)
    case 19 => Lit(7, Y)
    case 20 => IfGoTo(X_EQL_Y, DO_BEQ)
    case 21 => Lit(8, Y)
    case 22 => IfGoTo(X_EQL_Y, DO_BNE)
    case 23 => Lit(9, Y)
    case 24 => IfGoTo(X_EQL_Y, DO_PRINT)
    case 25 => GoTo(DO_HALT)
    case _ => NopLine
  }

  function ReadRegLine(start: Word, i: nat): Line {
    match i
    case 26 => Label(READ_REG)
    case 27 => Lit(0, Y)
    case 28 => IfGoTo(X_EQL_Y, READ_REG_RR0)
    case 29 => Lit(1, Y)
    case 30 => IfGoTo(X_EQL_Y, READ_REG_RR1)
    case 31 => Lit(2, Y)
    case 32 => IfGoTo(X_EQL_Y, READ_REG_RR2)
    case 33 => GoTo(READ_REG_RR3)
    case 34 => Label(READ_REG_RR0)
    case 35 => LoadPad(4, false, X)
    case 36 => Exit
    case 37 => Label(READ_REG_RR1)
    case 38 => LoadPad(5, false, X)
    case 39 => Exit
    case 40 => Label(READ_REG_RR2)
    case 41 => LoadPad(6, false, X)
    case 42 => Exit
    case 43 => Label(READ_REG_RR3)
    case 44 => LoadPad(7, false, X)
    case 45 => Exit
    case _ => NopLine
  }

  function WriteRegLine(start: Word, i: nat): Line {
    match i
    case 46 => Label(WRITE_REG)
    case 47 => Lit(0, Y)
    case 48 => IfGoTo(X_EQL_Y, WRITE_REG_WR0)
    case 49 => Lit(1, Y)
    case 50 => IfGoTo(X_EQL_Y, WRITE_REG_WR1)
    case 51 => Lit(2, Y)
    case 52 => IfGoTo(X_EQL_Y, WRITE_REG_WR2)
    case 53 => GoTo(WRITE_REG_WR3)
    case 54 => Label(WRITE_REG_WR0)
    case 55 => LoadPad(8, false, X)
    case 56 => StorePad(X, 4, false)
    case 57 => Exit
    case 58 => Label(WRITE_REG_WR1)
    case 59 => LoadPad(8, false, X)
    case 60 => StorePad(X, 5, false)
    case 61 => Exit
    case 62 => Label(WRITE_REG_WR2)
    case 63 => LoadPad(8, false, X)
    case 64 => StorePad(X, 6, false)
    case 65 => Exit
    case 66 => Label(WRITE_REG_WR3)
    case 67 => LoadPad(8, false, X)
    case 68 => StorePad(X, 7, false)
    case 69 => Exit
    case _ => NopLine
  }

  function LoadAddLine(start: Word, i: nat): Line {
    match i
    case 70 => Label(DO_HALT)
    case 71 => HaltLine
    case 72 => Label(DO_LOAD)
    case 73 => ReadBits(8, false, X, Counts(Inc, Stay))
    case 74 => StorePad(X, 2, false)
    case 75 => ReadBits(16, false, X, Counts(Inc, Stay))
    case 76 => StorePad(X, 8, false)
    case 77 => LoadPad(2, false, X)
    case 78 => CallTo(WRITE_REG)
    case 79 => GoTo(FETCH)
    case 80 => Label(DO_ADD)
    case 81 => ReadBits(8, false, X, Counts(Inc, Stay))
    case 82 => StorePad(X, 9, false)
    case 83 => ReadBits(8, false, X, Counts(Inc, Stay))
    case 84 => CallTo(READ_REG)
    case 85 => StorePad(X, 3, false)
    case 86 => ReadBits(8, false, X, Counts(Inc, Stay))
    case 87 => CallTo(READ_REG)
    case 88 => LoadPad(3, false, Y)
    case 89 => Move(SUM, T)
    case 90 => StorePad(T, 8, false)
    case 91 => LoadPad(9, false, X)
    case 92 => CallTo(WRITE_REG)
    case 93 => GoTo(FETCH)
    case _ => NopLine
  }

  function SubLine(start: Word, i: nat): Line {
    match i
    case 94 => Label(DO_SUB)
    case 95 => ReadBits(8, false, X, Counts(Inc, Stay))
    case 96 => StorePad(X, 9, false)
    case 97 => ReadBits(8, false, X, Counts(Inc, Stay))
    case 98 => CallTo(READ_REG)
    case 99 => StorePad(X, 3, false)
    case 100 => ReadBits(8, false, X, Counts(Inc, Stay))
    case 101 => CallTo(READ_REG)
    case 102 => Move(X, Y)
    case 103 => LoadPad(3, false, X)
    case 104 => Move(DIFF, T)
    case 105 => StorePad(T, 8, false)
    case 106 => LoadPad(9, false, X)
    case 107 => CallTo(WRITE_REG)
    case 108 => GoTo(FETCH)
    case _ => NopLine
  }

  function MultiplyLine(start: Word, i: nat): Line {
    match i
    case 109 => Label(DO_MUL)
    case 110 => ReadBits(8, false, X, Counts(Inc, Stay))
    case 111 => StorePad(X, 9, false)
    case 112 => ReadBits(8, false, X, Counts(Inc, Stay))
    case 113 => CallTo(READ_REG)
    case 114 => StorePad(X, 2, false)
    case 115 => ReadBits(8, false, X, Counts(Inc, Stay))
    case 116 => CallTo(READ_REG)
    case 117 => StorePad(X, 2, true)
    case 118 => Lit(0, X)
    case 119 => StorePad(X, 3, false)
    case 120 => Label(DO_MUL_FMULLOOP)
    case 121 => LoadPad(2, true, X)
    case 122 => Lit(0, Y)
    case 123 => IfGoTo(X_EQL_Y, DO_MUL_FMULDONE)
    case 124 => LoadPad(3, false, X)
    case 125 => LoadPad(2, false, Y)
    case 126 => Move(SUM, T)
    case 127 => StorePad(T, 3, false)
    case 128 => LoadPad(2, true, X)
    case 129 => Lit(1, Y)
    case 130 => Move(DIFF, T)
    case 131 => StorePad(T, 2, true)
    case 132 => GoTo(DO_MUL_FMULLOOP)
    case 133 => Label(DO_MUL_FMULDONE)
    case 134 => LoadPad(3, false, X)
    case 135 => StorePad(X, 8, false)
    case 136 => LoadPad(9, false, X)
    case 137 => CallTo(WRITE_REG)
    case 138 => GoTo(FETCH)
    case _ => NopLine
  }

  function MoveLine(start: Word, i: nat): Line {
    match i
    case 139 => Label(DO_MOV)
    case 140 => ReadBits(8, false, X, Counts(Inc, Stay))
    case 141 => StorePad(X, 2, false)
    case 142 => ReadBits(8, false, X, Counts(Inc, Stay))
    case 143 => CallTo(READ_REG)
    case 144 => StorePad(X, 8, false)
    case 145 => LoadPad(2, false, X)
    case 146 => CallTo(WRITE_REG)
    case 147 => GoTo(FETCH)
    case 148 => Label(DO_CMP)
    case 149 => ReadBits(8, false, X, Counts(Inc, Stay))
    case 150 => CallTo(READ_REG)
    case 151 => StorePad(X, 2, false)
    case 152 => ReadBits(8, false, X, Counts(Inc, Stay))
    case 153 => CallTo(READ_REG)
    case 154 => LoadPad(2, false, Y)
    case 155 => IfGoTo(X_EQL_Y, DO_CMP_CMPEQ)
    case 156 => Lit(1, X)
    case 157 => StorePad(X, 1, false)
    case 158 => GoTo(FETCH)
    case 159 => Label(DO_CMP_CMPEQ)
    case 160 => Lit(0, X)
    case 161 => StorePad(X, 1, false)
    case 162 => GoTo(FETCH)
    case _ => NopLine
  }

  function BranchLine(start: Word, i: nat): Line {
    match i
    case 163 => Label(DO_BEQ)
    case 164 => LoadPad(1, false, X)
    case 165 => Lit(0, Y)
    case 166 => IfGoTo(X_EQL_Y, DO_BEQ_BEQ_TAKE)
    case 167 => CountBy(Counts(Inc, Stay), 16)
    case 168 => GoTo(FETCH)
    case 169 => Label(DO_BEQ_BEQ_TAKE)
    case 170 => ReadBits(16, false, X, Counts(Inc, Stay))
    case 171 => Lit(start, Y)
    case 172 => Move(SUM, FA)
    case 173 => GoTo(FETCH)
    case 174 => Label(DO_BNE)
    case 175 => LoadPad(1, false, X)
    case 176 => Lit(0, Y)
    case 177 => IfGoTo(X_EQL_Y, DO_BNE_BNE_SKIP)
    case 178 => ReadBits(16, false, X, Counts(Inc, Stay))
    case 179 => Lit(start, Y)
    case 180 => Move(SUM, FA)
    case 181 => GoTo(FETCH)
    case 182 => Label(DO_BNE_BNE_SKIP)
    case 183 => CountBy(Counts(Inc, Stay), 16)
    case 184 => GoTo(FETCH)
    case 185 => Label(DO_PRINT)
    case 186 => ReadBits(8, false, X, Counts(Inc, Stay))
    case 187 => CallTo(READ_REG)
    case 188 => MonitorX
    case 189 => GoTo(FETCH)
    case _ => NopLine
  }

  function FortSource(start: Word): (p: Program)
    ensures |p| == LINES && forall i :: 0 <= i < LINES ==> p[i] == FortLine(start, i)
  {
    seq(LINES, i requires 0 <= i < LINES => FortLine(start, i))
  }

  /** Each label is numbered by its line, so labels are unique and every jump finds its line. */
  predicate SelfLabelled(l: Line, i: nat) {
    l.Label? ==> l.name == i
  }

  lemma FetchLineLabels(start: Word, i: nat)
    requires 0 <= i < 26
    ensures SelfLabelled(FetchLine(start, i), i)
  {
  }

  lemma ReadRegLineLabels(start: Word, i: nat)
    requires 26 <= i < 46
    ensures SelfLabelled(ReadRegLine(start, i), i)
  {
  }

  lemma WriteRegLineLabels(start: Word, i: nat)
    requires 46 <= i < 70
    ensures SelfLabelled(WriteRegLine(start, i), i)
  {
  }

  lemma LoadAddLineLabels(start: Word, i: nat)
    requires 70 <= i < 94
    ensures SelfLabelled(LoadAddLine(start, i), i)
  {
  }

  lemma SubLineLabels(start: Word, i: nat)
    requires 94 <= i < 109
    ensures SelfLabelled(SubLine(start, i), i)
  {
  }

  lemma MultiplyLineLabels(start: Word, i: nat)
    requires 109 <= i < 139
    ensures SelfLabelled(MultiplyLine(start, i), i)
  {
  }

  lemma MoveLineLabels(start: Word, i: nat)
    requires 139 <= i < 163
    ensures SelfLabelled(MoveLine(start, i), i)
  {
  }

  lemma BranchLineLabels(start: Word, i: nat)
    requires 163 <= i < 190
    ensures SelfLabelled(BranchLine(start, i), i)
  {
  }

  lemma Labels(start: Word, i: nat)
    requires i < LINES
    ensures SelfLabelled(FortLine(start, i), i)
  {
    hide FetchLine, ReadRegLine, WriteRegLine, LoadAddLine, SubLine, MultiplyLine, MoveLine, BranchLine;
    if i < 26 {
      FetchLineLabels(start, i);
    } else if i < 46 {
      ReadRegLineLabels(start, i);
    } else if i < 70 {
      WriteRegLineLabels(start, i);
    } else if i < 94 {
      LoadAddLineLabels(start, i);
    } else if i < 109 {
      SubLineLabels(start, i);
    } else if i < 139 {
      MultiplyLineLabels(start, i);
    } else if i < 163 {
      MoveLineLabels(start, i);
    } else if i < 190 {
      BranchLineLabels(start, i);
    }
  }

  lemma JumpFinds(start: Word, l: nat)
    requires l < LINES && FortLine(start, l) == Label(l)
    ensures Target(FortSource(start), l) == l
  {
    var p := FortSource(start);
    var k := Target(p, l);
    assert p[l] == Label(l);
    if k < l {
      Labels(start, k);
    }
    hide FortLine;
  }

  lemma ProgramFits(start: Word)
    ensures Fits(FortSource(start)) && |Code(FortSource(start))| <= 3 * LINES
  {
    hide FortLine;
  }

  lemma SizeAt(start: Word, i: nat)
    requires i < LINES
    ensures Size(FortLine(start, i)) <= 2 + if i == 171 || i == 179 then 1 else 0
  {
  }

  lemma {:induction false} AddrWithin(start: Word, i: nat)
    requires i <= LINES
    ensures AddrOf(FortSource(start), i) <= 2 * i + (if i > 171 then 1 else 0) + (if i > 179 then 1 else 0)
  {
    hide Size, FortLine;
    if i > 0 {
      AddrWithin(start, i - 1);
      SizeAt(start, i - 1);
    }
  }

  /** The interpreter fits the micro-store of Gismo. */
  lemma WithinMicroStore(start: Word)
    ensures 16 * |Code(FortSource(start))| <= 0x2000
  {
    AddrWithin(start, LINES);
    hide AddrOf;
  }
}
