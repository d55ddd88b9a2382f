/** The register map: which register each group and select names, what reading it gives and writing it changes. */
module RegisterMap {
  import opened Bits
  import opened BitMemory
  import opened Isa
  import opened Registers
  import opened Machine
  import opened OperandWidth
  import OperatorLaws

  /** Digits of T, FB and L, whole registers, condition registers (OnXY, OnFL, Interrupts: XYCN, FLCN, XYST), outputs of
      the function box. Length and Unit are FL and the unit field of CP; CMND reads as zero, Blank stands for addresses
      without a register. */
  datatype RegName =
    | TA | TB | TC | TD | TE | TF
    | FU | FT | FLC | FLD | FLE | FLF
    | LA | LB | LC | LD | LE | LF
    | X | Y | T | L | FA | FB | Length | CP | Unit | MAR | M | BR | LR | TAS | U | MAXS | MAXM | DATA | CMND
    | CA | CB | CC | CD | BICN | OnFL | OnXY | Interrupts
    | SUM | CMPX | CMPY | XANY | XEQY | MSKX | MSKY | XORY | DIFF
    | Blank

  /** One of four by select. */
  function Pick(s: nat, a: RegName, b: RegName, c: RegName, d: RegName): RegName {
    if s == 0 then a else if s == 1 then b else if s == 2 then c else if s == 3 then d else Blank
  }

  /** The map, a row for each group. */
  function NameAt(g: nat, s: nat): RegName {
    match g
    case 0 => Pick(s, TA, TB, TC, TD)
    case 1 => Pick(s, FU, FT, FLC, FLD)
    case 2 => Pick(s, X, Y, T, L)
    case 3 => Pick(s, SUM, CMPX, CMPY, XANY)
    case 4 => Pick(s, TE, FLE, MAR, XEQY)
    case 5 => Pick(s, TF, FLF, M, MSKX)
    case 6 => Pick(s, CA, BICN, BR, MSKY)
    case 7 => Pick(s, CB, OnFL, LR, XORY)
    case 8 => Pick(s, LA, Blank, FA, DIFF)
    case 9 => Pick(s, LB, Blank, FB, MAXS)
    case 10 => Pick(s, LC, Blank, Length, MAXM)
    case 11 => Pick(s, LD, Blank, TAS, U)
    case 12 => Pick(s, LE, OnXY, CP, Blank)
    case 13 => Pick(s, LF, Interrupts, Blank, DATA)
    case 14 => Pick(s, CC, Blank, Blank, CMND)
    case 15 => Pick(s, CD, Unit, Blank, Blank)
    case _ => Blank
  }

  /** Digit of v at a place. */
  function DigitOf(v: nat, place: nat): nat
    requires place > 0
  {
    v / place % 16
  }

  /** What the named register holds. */
  function Value(n: RegName, r: Regs): nat {
    match n
    case TA => DigitOf(r.t, 0x10_0000)
    case LA => DigitOf(r.l, 0x10_0000)
    case TB => DigitOf(r.t, 0x1_0000)
    case LB => DigitOf(r.l, 0x1_0000)
    case TC => DigitOf(r.t, 0x1000)
    case LC => DigitOf(r.l, 0x1000)
    case TD => DigitOf(r.t, 0x100)
    case LD => DigitOf(r.l, 0x100)
    case TE => DigitOf(r.t, 0x10)
    case LE => DigitOf(r.l, 0x10)
    case TF => DigitOf(r.t, 1)
    case LF => DigitOf(r.l, 1)
    case FU => DigitOf(r.fb, 0x10_0000)
    case FT => DigitOf(r.fb, 0x1_0000)
    case FLC => DigitOf(r.fb, 0x1000)
    case FLD => DigitOf(r.fb, 0x100)
    case FLE => DigitOf(r.fb, 0x10)
    case FLF => DigitOf(r.fb, 1)
    case X => r.x
    case Y => r.y
    case T => r.t
    case L => r.l
    case FA => r.fa
    case FB => r.fb
    case Length => r.fb % 0x1_0000
    case CP => r.cp
    case Unit => r.cp / 2
    case MAR => r.mar
    case M => r.m
    case BR => r.br
    case LR => r.lr
    case TAS => r.stack[r.sp]
    case U => r.u
    case MAXS => r.lat.maxs
    case MAXM => r.lat.maxm
    case DATA => r.lat.data
    case CA => r.lat.ca
    case CB => r.lat.cb
    case CC => r.lat.cc
    case CD => r.lat.cd
    case BICN => r.lat.bicn
    case OnFL => FLCN(r.fb, r.pads[0])
    case OnXY => XYCN(r.x, r.y, r.cp)
    case Interrupts => XYST(r.lat.cc)
    case CMND => 0
    case Blank => 0
    case _ => Output(n, r)
  }

  /** An output of the function box. */
  function Output(n: RegName, r: Regs): nat {
    var p := Modulus(r.cp);
    var x, y := r.x % p, r.y % p;
    match n
    case SUM => Sum(r.x, r.y, r.cp)
    case DIFF => Diff(r.x, r.y, r.cp)
    case CMPX => p - 1 - x
    case CMPY => p - 1 - y
    case XANY => BitAnd(x, y)
    case XORY => BitXor(x, y)
    case MSKX => x
    case MSKY => y
    case _ => if x == y then p - 1 else 0
  }

  /** v with another digit at a place. */
  predicate Replaced(v: nat, place: nat, d: nat, v': nat)
    requires place > 0
  {
    v' == v - DigitOf(v, place) * place + d * place
  }

  /** Writing v to the named register makes r' of r: that register changes, to v cut to its width, and nothing else does;
      the function box, the condition registers and blank addresses take no value. */
  predicate Writes(n: RegName, r: Regs, v: nat, r': Regs) {
    match n
    case TA => r' == r.(t := r'.t) && Replaced(r.t, 0x10_0000, v % 16, r'.t)
    case LA => r' == r.(l := r'.l) && Replaced(r.l, 0x10_0000, v % 16, r'.l)
    case TB => r' == r.(t := r'.t) && Replaced(r.t, 0x1_0000, v % 16, r'.t)
    case LB => r' == r.(l := r'.l) && Replaced(r.l, 0x1_0000, v % 16, r'.l)
    case TC => r' == r.(t := r'.t) && Replaced(r.t, 0x1000, v % 16, r'.t)
    case LC => r' == r.(l := r'.l) && Replaced(r.l, 0x1000, v % 16, r'.l)
    case TD => r' == r.(t := r'.t) && Replaced(r.t, 0x100, v % 16, r'.t)
    case LD => r' == r.(l := r'.l) && Replaced(r.l, 0x100, v % 16, r'.l)
    case TE => r' == r.(t := r'.t) && Replaced(r.t, 0x10, v % 16, r'.t)
    case LE => r' == r.(l := r'.l) && Replaced(r.l, 0x10, v % 16, r'.l)
    case TF => r' == r.(t := r'.t) && Replaced(r.t, 1, v % 16, r'.t)
    case LF => r' == r.(l := r'.l) && Replaced(r.l, 1, v % 16, r'.l)
    case FU => r' == r.(fb := r'.fb) && Replaced(r.fb, 0x10_0000, v % 16, r'.fb)
    case FT => r' == r.(fb := r'.fb) && Replaced(r.fb, 0x1_0000, v % 16, r'.fb)
    case FLC => r' == r.(fb := r'.fb) && Replaced(r.fb, 0x1000, v % 16, r'.fb)
    case FLD => r' == r.(fb := r'.fb) && Replaced(r.fb, 0x100, v % 16, r'.fb)
    case FLE => r' == r.(fb := r'.fb) && Replaced(r.fb, 0x10, v % 16, r'.fb)
    case FLF => r' == r.(fb := r'.fb) && Replaced(r.fb, 1, v % 16, r'.fb)
    case X => r' == r.(x := v % 0x100_0000)
    case Y => r' == r.(y := v % 0x100_0000)
    case T => r' == r.(t := v % 0x100_0000)
    case L => r' == r.(l := v % 0x100_0000)
    case FA => r' == r.(fa := v % 0x100_0000)
    case FB => r' == r.(fb := v % 0x100_0000)
    case BR => r' == r.(br := v % 0x100_0000)
    case LR => r' == r.(lr := v % 0x100_0000)
    case MAR => r' == r.(mar := v % 0x8_0000)
    case CP => r' == r.(cp := v % 0x100)
    case Length => r' == r.(fb := r'.fb) && r'.fb / 0x1_0000 == r.fb / 0x1_0000 && r'.fb % 0x1_0000 == v % 0x1_0000
    case Unit => r' == r.(cp := r'.cp) && r'.cp / 8 == r.cp / 8 && r'.cp / 2 % 4 == v % 4 && r'.cp % 2 == r.cp % 2
    case M => r' == r.(lat := r.lat.(pending := true, pendingValue := v % 0x1_0000))
    case TAS =>
      var p := (r.sp + 1) % r.depth;
      r' == r.(sp := p, stack := r.stack[p := v % 0x100_0000])
    case DATA => r' == r.(lat := r.lat.(data := v % 0x100_0000))
    case CMND => r' == r.(lat := r.lat.(cmnd := v % 0x100_0000))
    case CA => r' == r.(lat := r.lat.(ca := v % 16))
    case CB => r' == r.(lat := r.lat.(cb := v % 16))
    case CC => r' == r.(lat := r.lat.(cc := v % 16))
    case CD => r' == r.(lat := r.lat.(cd := v % 16))
    case _ => r' == r
  }

  lemma PlacesAre()
    ensures NibPlace(0) == 0x10_0000 && NibPlace(1) == 0x1_0000 && NibPlace(2) == 0x1000 && NibPlace(3) == 0x100
    ensures NibPlace(4) == 0x10 && NibPlace(5) == 1
  {
  }

  /** What stands above and below digit d of v. */
  lemma DigitSplit(v: nat, p: nat)
    requires p > 0
    ensures v == v / (16 * p) * (16 * p) + v / p % 16 * p + v % p
  {
    var a, r := v / p, v % p;
    var q, d := a / 16, a % 16;
    assert v == a * p + r && a == 16 * q + d;
    assert a * p == q * (16 * p) + d * p by {
      Spread(q, d, p);
    }
    MulMonotone(p, d + 1, 16);
    DivMod(q, d * p + r, 16 * p);
  }

  lemma Spread(q: nat, d: nat, p: nat)
    ensures (16 * q + d) * p == q * (16 * p) + d * p
  {
  }

  lemma DigitWritten(v: Word, k: nat, d: Nib)
    requires k < 6
    ensures Replaced(v, NibPlace(k), d, SetNib(v, k, d))
  {
    hide NibPlace, SetNib;
    OperatorLaws.SetIs(v, k, d);
    DigitSplit(v, NibPlace(k));
  }

  lemma DigitsWritten(v: Word, d: Nib)
    ensures Replaced(v, 0x10_0000, d, SetNib(v, 0, d)) && Replaced(v, 0x1_0000, d, SetNib(v, 1, d))
    ensures Replaced(v, 0x1000, d, SetNib(v, 2, d)) && Replaced(v, 0x100, d, SetNib(v, 3, d))
    ensures Replaced(v, 0x10, d, SetNib(v, 4, d)) && Replaced(v, 1, d, SetNib(v, 5, d))
  {
    hide SetNib, Replaced, NibPlace;
    PlacesAre();
    DigitWritten(v, 0, d);
    DigitWritten(v, 1, d);
    DigitWritten(v, 2, d);
    DigitWritten(v, 3, d);
    DigitWritten(v, 4, d);
    DigitWritten(v, 5, d);
  }

  lemma DigitsRead(v: nat)
    ensures GetNib(v, 0) == DigitOf(v, 0x10_0000) && GetNib(v, 1) == DigitOf(v, 0x1_0000)
    ensures GetNib(v, 2) == DigitOf(v, 0x1000) && GetNib(v, 3) == DigitOf(v, 0x100)
    ensures GetNib(v, 4) == DigitOf(v, 0x10) && GetNib(v, 5) == DigitOf(v, 1)
  {
  }

  lemma BoxMeans(r: Regs)
    ensures var mx, my := Masked(r.x, r.cp), Masked(r.y, r.cp);
      && FunctionBox(r, 0) == Sum(r.x, r.y, r.cp) && FunctionBox(r, 8) == Diff(r.x, r.y, r.cp)
      && FunctionBox(r, 1) == AllOnes(r.cp) - mx && FunctionBox(r, 2) == AllOnes(r.cp) - my
      && FunctionBox(r, 3) == BitAnd(mx, my) && FunctionBox(r, 7) == BitXor(mx, my)
      && FunctionBox(r, 5) == mx && FunctionBox(r, 6) == my
      && FunctionBox(r, 4) == if mx == my then AllOnes(r.cp) else 0
  {
    hide Masked, AllOnes, BitAnd, BitXor, Sum, Diff;
  }

  lemma ArithmeticOutputs(r: Regs)
    ensures var p := Modulus(r.cp); var x, y := r.x % p, r.y % p;
      && Output(SUM, r) == Sum(r.x, r.y, r.cp) && Output(DIFF, r) == Diff(r.x, r.y, r.cp)
      && Output(CMPX, r) == p - 1 - x && Output(CMPY, r) == p - 1 - y && Output(MSKX, r) == x && Output(MSKY, r) == y
  {
    hide Modulus, BitAnd, BitXor, Sum, Diff;
  }

  lemma LogicOutputs(r: Regs)
    ensures var p := Modulus(r.cp); var x, y := r.x % p, r.y % p;
      Output(XANY, r) == BitAnd(x, y) && Output(XORY, r) == BitXor(x, y) && Output(XEQY, r) == if x == y then p - 1 else 0
  {
    hide Modulus, BitAnd, BitXor, Sum, Diff;
  }

  lemma BoxOutputs(r: Regs)
    ensures FunctionBox(r, 0) == Output(SUM, r) && FunctionBox(r, 1) == Output(CMPX, r)
    ensures FunctionBox(r, 2) == Output(CMPY, r) && FunctionBox(r, 3) == Output(XANY, r)
    ensures FunctionBox(r, 4) == Output(XEQY, r) && FunctionBox(r, 5) == Output(MSKX, r)
    ensures FunctionBox(r, 6) == Output(MSKY, r) && FunctionBox(r, 7) == Output(XORY, r)
    ensures FunctionBox(r, 8) == Output(DIFF, r)
  {
    hide *;
    BoxMeans(r);
    ArithmeticOutputs(r);
    LogicOutputs(r);
    MaskedIsMod(r.x, r.cp);
    MaskedIsMod(r.y, r.cp);
  }

  lemma ReadsDigits(r: Regs, g: nat, s: nat)
    requires g <= 1
    ensures ReadReg(r, g, s) == Value(NameAt(g, s), r)
  {
    DigitsRead(r.t);
    DigitsRead(r.fb);
    DigitsRead(r.l);
    BoxOutputs(r);
    hide GetNib, DigitOf, FunctionBox, Output, FLCN, XYCN, XYST;
  }

  lemma ReadsOperands(r: Regs, g: nat, s: nat)
    requires g == 2 || g == 3
    ensures ReadReg(r, g, s) == Value(NameAt(g, s), r)
  {
    DigitsRead(r.t);
    DigitsRead(r.fb);
    DigitsRead(r.l);
    BoxOutputs(r);
    hide GetNib, DigitOf, FunctionBox, Output, FLCN, XYCN, XYST;
  }

  lemma ReadsLastDigits(r: Regs, g: nat, s: nat)
    requires g == 4 || g == 5
    ensures ReadReg(r, g, s) == Value(NameAt(g, s), r)
  {
    DigitsRead(r.t);
    DigitsRead(r.fb);
    DigitsRead(r.l);
    BoxOutputs(r);
    hide GetNib, DigitOf, FunctionBox, Output, FLCN, XYCN, XYST;
  }

  lemma ReadsBases(r: Regs, g: nat, s: nat)
    requires g == 6 || g == 7
    ensures ReadReg(r, g, s) == Value(NameAt(g, s), r)
  {
    DigitsRead(r.t);
    DigitsRead(r.fb);
    DigitsRead(r.l);
    BoxOutputs(r);
    hide GetNib, DigitOf, FunctionBox, Output, FLCN, XYCN, XYST;
  }

  lemma ReadsFields(r: Regs, g: nat, s: nat)
    requires 8 <= g <= 10
    ensures ReadReg(r, g, s) == Value(NameAt(g, s), r)
  {
    DigitsRead(r.t);
    DigitsRead(r.fb);
    DigitsRead(r.l);
    BoxOutputs(r);
    hide GetNib, DigitOf, FunctionBox, Output, FLCN, XYCN, XYST;
  }

  lemma ReadsStack(r: Regs, g: nat, s: nat)
    requires g == 11 || g == 12
    ensures ReadReg(r, g, s) == Value(NameAt(g, s), r)
  {
    DigitsRead(r.t);
    DigitsRead(r.fb);
    DigitsRead(r.l);
    BoxOutputs(r);
    hide GetNib, DigitOf, FunctionBox, Output, FLCN, XYCN, XYST;
  }

  lemma ReadsRest(r: Regs, g: nat, s: nat)
    requires g >= 13
    ensures ReadReg(r, g, s) == Value(NameAt(g, s), r)
  {
    DigitsRead(r.t);
    DigitsRead(r.fb);
    DigitsRead(r.l);
    BoxOutputs(r);
    hide GetNib, DigitOf, FunctionBox, Output, FLCN, XYCN, XYST;
  }

  /** Reading a group and select gives what the register it names holds. */
  lemma ReadsNamed(r: Regs, g: nat, s: nat)
    ensures ReadReg(r, g, s) == Value(NameAt(g, s), r)
  {
    hide *;
    if g <= 1 {
      ReadsDigits(r, g, s);
    } else if g <= 3 {
      ReadsOperands(r, g, s);
    } else if g <= 5 {
      ReadsLastDigits(r, g, s);
    } else if g <= 7 {
      ReadsBases(r, g, s);
    } else if g <= 10 {
      ReadsFields(r, g, s);
    } else if g <= 12 {
      ReadsStack(r, g, s);
    } else {
      ReadsRest(r, g, s);
    }
  }

  lemma WritesDigits(r: Regs, g: nat, s: nat, v: nat)
    requires g <= 1 || g == 4 || g == 5
    ensures Writes(NameAt(g, s), r, v, WriteReg(r, g, s, v))
  {
    DigitsWritten(r.t, v % 16);
    DigitsWritten(r.fb, v % 16);
    hide SetNib, Replaced;
  }

  lemma WritesMiddle(r: Regs, g: nat, s: nat, v: nat)
    requires g == 2 || g == 3 || g == 6 || g == 7
    ensures Writes(NameAt(g, s), r, v, WriteReg(r, g, s, v))
  {
    DigitsWritten(r.l, v % 16);
    hide SetNib, Replaced;
  }

  lemma WritesFields(r: Regs, g: nat, s: nat, v: nat)
    requires g == 8 || g == 9
    ensures Writes(NameAt(g, s), r, v, WriteReg(r, g, s, v))
  {
    DigitsWritten(r.l, v % 16);
    hide SetNib, Replaced;
  }

  lemma UnitWritten(cp: Octet, v: nat)
    ensures var q := SetCPU(cp, v); q / 8 == cp / 8 && q / 2 % 4 == v % 4 && q % 2 == cp % 2
  {
    assert SetCPU(cp, v) == (cp / 8) * 8 + (v % 4) * 2 + cp % 2;
    OperatorLaws.ThreeFields(cp / 8, v % 4, cp % 2);
  }

  lemma WritesStack(r: Regs, g: nat, s: nat, v: nat)
    requires g == 10 || g == 11
    ensures Writes(NameAt(g, s), r, v, WriteReg(r, g, s, v))
  {
    DigitsWritten(r.l, v % 16);
    hide SetNib, Replaced, SetFL;
  }

  lemma WritesUpper(r: Regs, g: nat, s: nat, v: nat)
    requires g == 12 || g == 13
    ensures Writes(NameAt(g, s), r, v, WriteReg(r, g, s, v))
  {
    DigitsWritten(r.l, v % 16);
    hide SetNib, Replaced;
  }

  lemma WritesRest(r: Regs, g: nat, s: nat, v: nat)
    requires g >= 14
    ensures Writes(NameAt(g, s), r, v, WriteReg(r, g, s, v))
  {
    UnitWritten(r.cp, v);
    hide SetCPU;
  }

  /** Writing a group and select changes the register it names. */
  lemma WritesNamed(r: Regs, g: nat, s: nat, v: nat)
    ensures Writes(NameAt(g, s), r, v, WriteReg(r, g, s, v))
  {
    if g <= 1 || g == 4 || g == 5 {
      WritesDigits(r, g, s, v);
    } else if g <= 7 {
      WritesMiddle(r, g, s, v);
    } else if g <= 9 {
      WritesFields(r, g, s, v);
    } else if g <= 11 {
      WritesStack(r, g, s, v);
    } else if g <= 13 {
      WritesUpper(r, g, s, v);
    } else {
      WritesRest(r, g, s, v);
    }
    hide *;
  }

  // ----- operators that load a register -----

  /** MOVE loads the named register with what the other holds; TAS as a source is popped. */
  lemma MovesNamed(r: Regs, sg: nat, ss: nat, dg: nat, ds: nat)
    ensures var r0 := if NameAt(sg, ss) == TAS then r.(sp := (r.sp + r.depth - 1) % r.depth) else r;
      Writes(NameAt(dg, ds), r0, Value(NameAt(sg, ss), r), ExecMove(r, sg, ss, dg, ds))
  {
    var r0 := if sg == 11 && ss == 2 then Pop(r) else r;
    ReadsNamed(r, sg, ss);
    assert sg == 11 && ss == 2 ==> Top(r) == ReadReg(r, sg, ss);
    assert NameAt(sg, ss) == TAS <==> sg == 11 && ss == 2;
    hide ReadReg, WriteReg, NameAt, Value, Writes;
    WritesNamed(r0, dg, ds, ReadReg(r, sg, ss));
  }

  /** Scratchpad moves: a half of the word is loaded into the named register, or stored from it. */
  lemma PadMovesNamed(r: Regs, pad: nat, right: bool, rs: nat, rg: nat)
    requires pad < 16
    ensures Writes(NameAt(rg, rs), r, if right then r.pads[pad].right else r.pads[pad].left,
                   ExecPadMove(r, pad, right, true, rs, rg))
    ensures var v, was, r' := Value(NameAt(rg, rs), r), r.pads[pad], ExecPadMove(r, pad, right, false, rs, rg);
      && r' == r.(pads := r'.pads) && (forall k :: 0 <= k < 16 && k != pad ==> r'.pads[k] == r.pads[k])
      && (if right then r'.pads[pad].right == v && r'.pads[pad].left == was.left
          else r'.pads[pad].left == v && r'.pads[pad].right == was.right)
  {
    ReadsNamed(r, rg, rs);
    WritesNamed(r, rg, rs, if right then r.pads[pad].right else r.pads[pad].left);
    hide ReadReg, WriteReg, NameAt, Value, Writes;
  }

  /** Literals load select 2 of the group, the long ones from the word at MAR, which is passed over; SHIFT T loads its
      target, EXTRACT X, Y, T or L. */
  lemma LoadsNamed(s: State, g: nat, d: nat, v: nat, rot: bool, n: nat, w: nat)
    ensures Writes(NameAt(g, 2), s.r, v, ExecRegs(Lit8(g, v), s.r))
    ensures var t := Exec(Lit24(g, v), s);
      && t == s.(r := t.r)
      && Writes(NameAt(g, 2), s.r.(mar := (s.r.mar + 16) % 0x8_0000), v * 0x1_0000 + FetchMicro(s.m, s.r.mar), t.r)
    ensures Writes(NameAt(g, d), s.r, ShiftTResult(s.r, rot, n), ExecRegs(ShiftT(g, d, rot, n), s.r))
    ensures Writes(NameAt(2, d), s.r, ExtractResult(s.r, n, w), ExecRegs(Extract(n, d, w), s.r))
  {
    var r1 := s.r.(mar := (s.r.mar + 16) % 0x8_0000);
    var lit := v * 0x1_0000 + FetchMicro(s.m, s.r.mar);
    LoadsAre(s, g, d, v, rot, n, w);
    hide *;
    WritesNamed(s.r, g, 2, v);
    WritesNamed(r1, g, 2, lit);
    WritesNamed(s.r, g, d, ShiftTResult(s.r, rot, n));
    WritesNamed(s.r, 2, d, ExtractResult(s.r, n, w));
  }

  lemma LoadsAre(s: State, g: nat, d: nat, v: nat, rot: bool, n: nat, w: nat)
    ensures ExecRegs(Lit8(g, v), s.r) == WriteReg(s.r, g, 2, v)
    ensures Exec(Lit24(g, v), s)
      == s.(r := WriteReg(s.r.(mar := (s.r.mar + 16) % 0x8_0000), g, 2, v * 0x1_0000 + FetchMicro(s.m, s.r.mar)))
    ensures ExecRegs(ShiftT(g, d, rot, n), s.r) == WriteReg(s.r, g, d, ShiftTResult(s.r, rot, n))
    ensures ExecRegs(Extract(n, d, w), s.r) == WriteReg(s.r, 2, d, ExtractResult(s.r, n, w))
  {
    hide WriteReg, ShiftTResult, ExtractResult, FetchMicro;
  }
}
