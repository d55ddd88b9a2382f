/** The S-CALC interpreter, line by line, for S-code at bit address `start` (0x4000) and the data stack at `stack`
    (0x8000). */
module CalcMicrocode {
  import opened Registers
  import opened Mil
  import opened Simulation

  // Labels, numbered by the line that defines them.
  const INIT: nat := 0
  const FETCH: nat := 8
  const DO_HALT: nat := 27
  const DO_PUSH: nat := 29
  const DO_ADD: nat := 35
  const DO_SUB: nat := 45
  const DO_MUL: nat := 55
  const DO_MUL_MULLOOP: nat := 65
  const DO_MUL_MULDONE: nat := 78
  const DO_PRINT: nat := 83
  const DO_DUP: nat := 90
  const DO_SWAP: nat := 98

  const LINES: nat := 108
  const X_EQL_Y: Cond := Cond(XY(Eql), false)

  function CalcLine(start: Word, stack: Word, i: nat): Line {
    if i < 29 then FetchLine(start, stack, i)
    else if i < 55 then PushAddLine(start, stack, i)
    else if i < 83 then MultiplyLine(start, stack, i)
    else if i < 108 then OutputLine(start, stack, i)
    else NopLine
  }

  function FetchLine(start: Word, stack: Word, i: nat): Line {
    match i
    case 0 => Label(INIT)
    case 1 => Lit(start, FA)
    case 2 => Lit(0, FB)
    case 3 => StoreF(0)
    case 4 => Lit(stack, FA)
    case 5 => Lit(0, FB)
    case 6 => StoreF(1)
    case 7 => Xch(0, 1)
    case 8 => Label(FETCH)
    case 9 => ReadBits(8, false, X, Counts(Inc, Stay))
    case 10 => Lit(0, Y)
    case 11 => IfGoTo(X_EQL_Y, DO_HALT)
    case 12 => Lit(1, Y)
    case 13 => IfGoTo(X_EQL_Y, DO_PUSH)
    case 14 => Lit(2, Y)
    case 15 => IfGoTo(X_EQL_Y, DO_ADD)
    case 16 => Lit(3, Y)
    case 17 => IfGoTo(X_EQL_Y, DO_SUB)
    case 18 => Lit(4, Y)
    case 19 => IfGoTo(X_EQL_Y, DO_MUL)
    case 20 => Lit(5, Y)
    case 21 => IfGoTo(X_EQL_Y, DO_PRINT)
    case 22 => Lit(6, Y)
    case 23 => IfGoTo(X_EQL_Y, DO_DUP)
    case 24 => Lit(7, Y)
    case 25 => IfGoTo(X_EQL_Y, DO_SWAP)
    case 26 => GoTo(DO_HALT)
    case 27 => Label(DO_HALT)
    case 28 => HaltLine
    case _ => NopLine
  }

  function PushAddLine(start: Word, stack: Word, i: nat): Line {
    match i
    case 29 => Label(DO_PUSH)
    case 30 => ReadBits(24, false, X, Counts(Inc, Stay))
    case 31 => Xch(1, 0)
    case 32 => WriteBits(24, X, Counts(Inc, Stay))
    case 33 => Xch(0, 1)
    case 34 => GoTo(FETCH)
    case 35 => Label(DO_ADD)
    case 36 => Xch(1, 0)
    case 37 => CountBy(Counts(Dec, Stay), 24)
    case 38 => ReadBits(24, false, Y, Counts(Stay, Stay))
    case 39 => CountBy(Counts(Dec, Stay), 24)
    case 40 => ReadBits(24, false, X, Counts(Stay, Stay))
    case 41 => Move(SUM, T)
    case 42 => WriteBits(24, T, Counts(Inc, Stay))
    case 43 => Xch(0, 1)
    case 44 => GoTo(FETCH)
    case 45 => Label(DO_SUB)
    case 46 => Xch(1, 0)
    case 47 => CountBy(Counts(Dec, Stay), 24)
    case 48 => ReadBits(24, false, Y, Counts(Stay, Stay))
    case 49 => CountBy(Counts(Dec, Stay), 24)
    case 50 => ReadBits(24, false, X, Counts(Stay, Stay))
    case 51 => Move(DIFF, T)
    case 52 => WriteBits(24, T, Counts(Inc, Stay))
    case 53 => Xch(0, 1)
    case 54 => GoTo(FETCH)
    case _ => NopLine
  }

  function MultiplyLine(start: Word, stack: Word, i: nat): Line {
    match i
    case 55 => Label(DO_MUL)
    case 56 => Xch(1, 0)
    case 57 => CountBy(Counts(Dec, Stay), 24)
    case 58 => ReadBits(24, false, Y, Counts(Stay, Stay))
    case 59 => CountBy(Counts(Dec, Stay), 24)
    case 60 => ReadBits(24, false, X, Counts(Stay, Stay))
    case 61 => StorePad(X, 2, false)
    case 62 => StorePad(Y, 2, true)
    case 63 => Lit(0, X)
    case 64 => StorePad(X, 3, false)
    case 65 => Label(DO_MUL_MULLOOP)
    case 66 => LoadPad(2, true, X)
    case 67 => Lit(0, Y)
    case 68 => IfGoTo(X_EQL_Y, DO_MUL_MULDONE)
    case 69 => LoadPad(3, false, X)
    case 70 => LoadPad(2, false, Y)
    case 71 => Move(SUM, T)
    case 72 => StorePad(T, 3, false)
    case 73 => LoadPad(2, true, X)
    case 74 => Lit(1, Y)
    case 75 => Move(DIFF, T)
    case 76 => StorePad(T, 2, true)
    case 77 => GoTo(DO_MUL_MULLOOP)
    case 78 => Label(DO_MUL_MULDONE)
    case 79 => LoadPad(3, false, X)
    case 80 => WriteBits(24, X, Counts(Inc, Stay))
    case 81 => Xch(0, 1)
    case 82 => GoTo(FETCH)
    case _ => NopLine
  }

  function OutputLine(start: Word, stack: Word, i: nat): Line {
    match i
    case 83 => Label(DO_PRINT)
    case 84 => Xch(1, 0)
    case 85 => CountBy(Counts(Dec, Stay), 24)
    case 86 => ReadBits(24, false, X, Counts(Stay, Stay))
    case 87 => Xch(0, 1)
    case 88 => MonitorX
    case 89 => GoTo(FETCH)
    case 90 => Label(DO_DUP)
    case 91 => Xch(1, 0)
    case 92 => CountBy(Counts(Dec, Stay), 24)
    case 93 => ReadBits(24, false, X, Counts(Stay, Stay))
    case 94 => WriteBits(24, X, Counts(Inc, Stay))
    case 95 => WriteBits(24, X, Counts(Inc, Stay))
    case 96 => Xch(0, 1)
    case 97 => GoTo(FETCH)
    case 98 => Label(DO_SWAP)
    case 99 => Xch(1, 0)
    case 100 => CountBy(Counts(Dec, Stay), 24)
    case 101 => ReadBits(24, false, Y, Counts(Stay, Stay))
    case 102 => CountBy(Counts(Dec, Stay), 24)
    case 103 => ReadBits(24, false, X, Counts(Stay, Stay))
    case 104 => WriteBits(24, Y, Counts(Inc, Stay))
    case 105 => WriteBits(24, X, Counts(Inc, Stay))
    case 106 => Xch(0, 1)
    case 107 => GoTo(FETCH)
    case _ => NopLine
  }

  function CalcSource(start: Word, stack: Word): (p: Program)
    ensures |p| == LINES && forall i :: 0 <= i < LINES ==> p[i] == CalcLine(start, stack, i)
  {
    seq(LINES, i requires 0 <= i < LINES => CalcLine(start, stack, i))
  }

  /** Each label is numbered by its line, so labels are unique and every jump finds its line. */
  predicate SelfLabelled(l: Line, i: nat) {
    l.Label? ==> l.name == i
  }

  lemma FetchLineLabels(start: Word, stack: Word, i: nat)
    requires 0 <= i < 29
    ensures SelfLabelled(FetchLine(start, stack, i), i)
  {
  }

  lemma PushAddLineLabels(start: Word, stack: Word, i: nat)
    requires 29 <= i < 55
    ensures SelfLabelled(PushAddLine(start, stack, i), i)
  {
  }

  lemma MultiplyLineLabels(start: Word, stack: Word, i: nat)
    requires 55 <= i < 83
    ensures SelfLabelled(MultiplyLine(start, stack, i), i)
  {
  }

  lemma OutputLineLabels(start: Word, stack: Word, i: nat)
    requires 83 <= i < 108
    ensures SelfLabelled(OutputLine(start, stack, i), i)
  {
  }

  lemma Labels(start: Word, stack: Word, i: nat)
    requires i < LINES
    ensures SelfLabelled(CalcLine(start, stack, i), i)
  {
    hide FetchLine, PushAddLine, MultiplyLine, OutputLine;
    if i < 29 {
      FetchLineLabels(start, stack, i);
    } else if i < 55 {
      PushAddLineLabels(start, stack, i);
    } else if i < 83 {
      MultiplyLineLabels(start, stack, i);
    } else if i < 108 {
      OutputLineLabels(start, stack, i);
    }
  }

  lemma JumpFinds(start: Word, stack: Word, l: nat)
    requires l < LINES && CalcLine(start, stack, l) == Label(l)
    ensures Target(CalcSource(start, stack), l) == l
  {
    var p := CalcSource(start, stack);
    var k := Target(p, l);
    assert p[l] == Label(l);
    if k < l {
      Labels(start, stack, k);
    }
    hide CalcLine;
  }

  lemma ProgramFits(start: Word, stack: Word)
    ensures Fits(CalcSource(start, stack)) && |Code(CalcSource(start, stack))| <= 3 * LINES
  {
    hide CalcLine;
  }
}
