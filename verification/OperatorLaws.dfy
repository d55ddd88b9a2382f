/** What the register file and the operators compute, stated without their formulas: read-back of the aliased nibble
    views, modular arithmetic of the function box, bits of the logical outputs, carries, shifts and counts. */
module OperatorLaws {
  import opened Bits
  import opened Isa
  import opened Registers
  import opened Machine
  import opened OperandWidth
  import Decimal
  import Storage

  // ----- nibble views -----

  type Digits6 = d: seq<nat> | |d| == 6 && forall k :: 0 <= k < 6 ==> d[k] < 16 witness [0, 0, 0, 0, 0, 0]

  function Composed(d: Digits6): Word {
    d[0] * 0x10_0000 + d[1] * 0x1_0000 + d[2] * 0x1000 + d[3] * 0x100 + d[4] * 0x10 + d[5]
  }

  lemma Decomposes(v: Word) returns (d: Digits6)
    ensures v == Composed(d)
  {
    var v1 := v / 16;
    var v2 := v1 / 16;
    var v3 := v2 / 16;
    var v4 := v3 / 16;
    d := [v4 / 16, v4 % 16, v3 % 16, v2 % 16, v1 % 16, v % 16];
  }

  /** What stands above and below digit k. */
  lemma Splits(d: Digits6, k: nat, n: Nib) returns (hi: nat, lo: nat)
    requires k < 6
    ensures lo < NibPlace(k) && Composed(d) == (hi * 16 + d[k]) * NibPlace(k) + lo
    ensures Composed(d[k := n]) == (hi * 16 + n) * NibPlace(k) + lo
  {
    hi := if k == 0 then 0 else if k == 1 then d[0] else if k == 2 then d[0] * 16 + d[1]
      else if k == 3 then d[0] * 0x100 + d[1] * 16 + d[2]
      else if k == 4 then d[0] * 0x1000 + d[1] * 0x100 + d[2] * 16 + d[3]
      else d[0] * 0x1_0000 + d[1] * 0x1000 + d[2] * 0x100 + d[3] * 16 + d[4];
    lo := Composed(d) - (hi * 16 + d[k]) * NibPlace(k);
  }

  lemma GetComposed(d: Digits6, k: nat)
    requires k < 6
    ensures GetNib(Composed(d), k) == d[k]
  {
    hide Composed, NibPlace;
    var hi, lo := Splits(d, k, 0);
    DivMod(hi * 16 + d[k], lo, NibPlace(k));
    DivMod(hi, d[k], 16);
  }

  lemma SetAt(hi: nat, was: Nib, lo: nat, k: nat, n: Nib)
    requires k < 6 && lo < NibPlace(k) && (hi * 16 + was) * NibPlace(k) + lo < 0x100_0000
    ensures SetNib((hi * 16 + was) * NibPlace(k) + lo, k, n) == (hi * 16 + n) * NibPlace(k) + lo
  {
    hide SetNib, NibPlace;
    var p := NibPlace(k);
    var v := (hi * 16 + was) * p + lo;
    DivMod(hi * 16 + was, lo, p);
    Regroup(hi, was, p, lo);
    Regroup(hi, n, p, lo);
    MulMonotone(p, was + 1, 16);
    DivMod(hi, was * p + lo, 16 * p);
    SetIs(v, k, n);
  }

  lemma Regroup(hi: nat, n: nat, p: nat, lo: nat)
    ensures (hi * 16 + n) * p + lo == hi * (16 * p) + (n * p + lo)
  {
  }

  lemma SetIs(v: Word, k: nat, n: Nib)
    requires k < 6
    ensures SetNib(v, k, n) == v / (16 * NibPlace(k)) * (16 * NibPlace(k)) + n * NibPlace(k) + v % NibPlace(k)
  {
  }

  /** Setting one nibble of a 24-bit register leaves it readable there and changes no other. */
  lemma NibbleViews(v: Word, k: nat, n: Nib, j: nat)
    requires k < 6 && j < 6
    ensures GetNib(SetNib(v, k, n), j) == if j == k then n else GetNib(v, j)
  {
    hide GetNib, SetNib, Composed, NibPlace;
    var d := Decomposes(v);
    var hi, lo := Splits(d, k, n);
    SetAt(hi, d[k], lo, k, n);
    GetComposed(d, j);
    GetComposed(d[k := n], j);
  }

  // ----- the binary function box -----

  /** Outside decimal mode SUM adds and DIFF subtracts modulo the operand width. */
  lemma BinaryBox(x: Word, y: Word, cp: Octet)
    requires cp / 2 % 4 != 1
    ensures Sum(x, y, cp) == (x + y) % Modulus(cp) && Diff(x, y, cp) == (x - y) % Modulus(cp)
  {
    assert CPU(cp) != 1;
    hide *;
    MaskedBox(x, y, cp);
    MaskedIsMod(x, cp);
    MaskedIsMod(y, cp);
    AddMod(x, y, Modulus(cp));
  }

  lemma MaskedBox(x: Word, y: Word, cp: Octet)
    requires CPU(cp) != 1
    ensures Sum(x, y, cp) == (Masked(x, cp) + Masked(y, cp)) % Modulus(cp)
    ensures Diff(x, y, cp) == (Masked(x, cp) - Masked(y, cp)) % Modulus(cp)
  {
    hide *;
    var mx, my, p := Masked(x, cp), Masked(y, cp), Modulus(cp);
    MaskedIsMod(x, cp);
    MaskedIsMod(y, cp);
    MaskedIsMod(mx + my, cp);
    if mx >= my {
      Decimal.ModUnique(0, mx - my, p);
    } else {
      MaskedIsMod(mx + AllOnes(cp) + 1 - my, cp);
      Decimal.ModUnique(0, mx + p - my, p);
      Decimal.ModUnique(-1, mx + p - my, p);
    }
    BoxIs(x, y, cp);
  }

  lemma BoxIs(x: Word, y: Word, cp: Octet)
    requires CPU(cp) != 1
    ensures var mx, my := Masked(x, cp), Masked(y, cp);
      Sum(x, y, cp) == Masked(mx + my, cp)
      && (mx >= my ==> Diff(x, y, cp) == mx - my)
      && (mx < my ==> Diff(x, y, cp) == Masked(mx + AllOnes(cp) + 1 - my, cp))
  {
    hide Masked, AllOnes, BcdAdd, BcdSub, CPU;
  }

  /** DIFF undoes SUM in binary as it does in decimal. */
  lemma BinaryDiffUndoesSum(x: Word, y: Word, cp: Octet)
    requires cp / 2 % 4 != 1
    ensures Diff(Sum(x, y, cp), y, cp) == x % Modulus(cp)
  {
    hide *;
    var s, p := Sum(x, y, cp), Modulus(cp);
    BinaryBox(x, y, cp);
    BinaryBox(s, y, cp);
    AddMod(x + y, y, p);
    AddMod(s, y, p);
    Decimal.ModUnique(0, s, p);
  }

  // ----- reading back a register -----

  /** The values a register address keeps: the modulus of its width, or zero when a write does not show in a read. */
  function Kept(g: nat, s: nat): nat {
    match g
    case 0 => if s < 4 then 16 else 0
    case 1 => if s < 4 then 16 else 0
    case 2 => if s < 4 then K24 else 0
    case 4 => if s < 2 then 16 else if s == 2 then K19 else 0
    case 5 => if s < 2 then 16 else 0
    case 10 => if s == 0 then 16 else if s == 2 then K16 else 0
    case 12 => if s == 0 then 16 else if s == 2 then K8 else 0
    case 13 => if s == 0 then 16 else if s == 3 then K24 else 0
    case 14 => if s == 0 then 16 else 0
    case 15 => if s == 0 then 16 else 0
    case _ => if 6 <= g <= 11 then (if s == 0 then 16 else if s == 2 then K24 else 0) else 0
  }

  /** A value written at a group and select is read there, cut to the register's width; TAS reads the value pushed. */
  lemma WriteThenRead(r: Regs, g: nat, s: nat, v: nat)
    requires Kept(g, s) > 0
    ensures ReadReg(WriteReg(r, g, s, v), g, s) == v % Kept(g, s)
  {
    if g == 0 || g == 1 || ((g == 4 || g == 5) && s < 2) || (8 <= g <= 13 && s == 0) {
      NibbleReadsBack(r, g, s, v);
    } else {
      WholeReadsBack(r, g, s, v);
    }
    hide *;
  }

  lemma NibbleReadsBack(r: Regs, g: nat, s: nat, v: nat)
    requires (g <= 1 && s < 4) || ((g == 4 || g == 5) && s < 2) || (8 <= g <= 13 && s == 0)
    ensures Kept(g, s) == 16 && ReadReg(WriteReg(r, g, s, v), g, s) == v % 16
  {
    hide GetNib, SetNib, FunctionBox;
    var k := if g <= 1 then s else if g <= 5 then g else g - 8;
    NibbleViews(r.t, k, v % 16, k);
    NibbleViews(r.fb, k, v % 16, k);
    NibbleViews(r.l, k, v % 16, k);
  }

  lemma WholeReadsBack(r: Regs, g: nat, s: nat, v: nat)
    requires Kept(g, s) > 0
    requires !(g == 0 || g == 1 || ((g == 4 || g == 5) && s < 2) || (8 <= g <= 13 && s == 0))
    ensures ReadReg(WriteReg(r, g, s, v), g, s) == v % Kept(g, s)
  {
    hide GetNib, SetNib, FunctionBox, SetFL, FLCN, XYCN;
  }

  // ----- logical outputs -----

  lemma {:induction false} XorBits(a: nat, b: nat, k: nat)
    ensures Bit(BitXor(a, b), k) == (Bit(a, k) != Bit(b, k))
  {
    if a == 0 || b == 0 {
      Storage.ZeroBits(k);
    } else if k > 0 {
      XorBits(a / 2, b / 2, k - 1);
    }
  }

  /** The other outputs bit by bit, n being the operand length: CMPX and CMPY complement, XANY, XORY, MSKX and MSKY work
      on the bits below n, XEQY is all ones below n or zero. */
  lemma LogicalBox(r: Regs, k: nat)
    ensures var inside, x, y := k < OperandLength(r.cp), Bit(r.x, k), Bit(r.y, k);
      && Bit(FunctionBox(r, 1), k) == (inside && k < 24 && !x) && Bit(FunctionBox(r, 2), k) == (inside && k < 24 && !y)
      && Bit(FunctionBox(r, 3), k) == (inside && x && y) && Bit(FunctionBox(r, 7), k) == (inside && x != y)
      && Bit(FunctionBox(r, 5), k) == (inside && x) && Bit(FunctionBox(r, 6), k) == (inside && y)
      && Bit(FunctionBox(r, 4), k) == (inside && k < 24 && r.x % Modulus(r.cp) == r.y % Modulus(r.cp))
  {
    hide *;
    var mx, my := Masked(r.x, r.cp), Masked(r.y, r.cp);
    BoxOutputs(r);
    MaskedIsMod(r.x, r.cp);
    MaskedIsMod(r.y, r.cp);
    MaskedBits(r.x, r.cp, k);
    MaskedBits(r.y, r.cp, k);
    OnesMinus(mx, r.cp, k);
    OnesMinus(my, r.cp, k);
    OnesMinus(0, r.cp, k);
    Storage.ZeroBits(k);
    Storage.AndBits(mx, my, k);
    XorBits(mx, my, k);
  }

  lemma BoxOutputs(r: Regs)
    ensures var mx, my := Masked(r.x, r.cp), Masked(r.y, r.cp);
      && FunctionBox(r, 1) == AllOnes(r.cp) - mx && FunctionBox(r, 2) == AllOnes(r.cp) - my
      && FunctionBox(r, 3) == BitAnd(mx, my) && FunctionBox(r, 7) == BitXor(mx, my)
      && FunctionBox(r, 5) == mx && FunctionBox(r, 6) == my
      && FunctionBox(r, 4) == if mx == my then AllOnes(r.cp) else 0
  {
    hide Masked, AllOnes, BitAnd, BitXor, Sum, Diff;
  }

  lemma OnesMinus(v: nat, cp: nat, k: nat)
    requires v < Modulus(cp)
    ensures v <= AllOnes(cp) && Bit(AllOnes(cp) - v, k) == (k < OperandLength(cp) && k < 24 && !Bit(v, k))
  {
    MaskedIsMod(0, cp);
    ModulusPower(cp);
    hide AllOnes, Modulus, OperandLength, Bit, Pow2;
    ComplementBit(v, if OperandLength(cp) > 24 then 24 else OperandLength(cp), k);
  }

  // ----- carries, bias -----

  /** CARRY: bit 0 of the variant clears the flag, bit 1 sets it, bit 2 sets it to whether the sum of the operands
      overflows their width, bit 3 sets it when the operands differ; a later bit wins. The rest of CP stays. */
  lemma CarryIsOverflow(r: Regs, v: nat)
    requires v < 16
    ensures var p := Modulus(r.cp); var x, y, flag := r.x % p, r.y % p, ExecCarry(r, v).cp % 2 == 1;
      flag == if Bit(v, 3) && x != y then true
              else if Bit(v, 2) then x + y >= p
              else if Bit(v, 1) then true
              else if Bit(v, 0) then false
              else r.cp % 2 == 1
    ensures ExecCarry(r, v).cp / 2 == r.cp / 2 && ExecCarry(r, v) == r.(cp := ExecCarry(r, v).cp)
  {
    var mx, my := Masked(r.x, r.cp), Masked(r.y, r.cp);
    var over := mx + my > AllOnes(r.cp);
    var c1 := if v % 2 == 1 then SetCYF(r.cp, 0) else r.cp;
    var c2 := if v / 2 % 2 == 1 then SetCYF(c1, 1) else c1;
    var c3 := if v / 4 % 2 == 1 then SetCYF(c2, if over then 1 else 0) else c2;
    var c4 := if v / 8 % 2 == 1 && mx != my then SetCYF(c3, 1) else c3;
    assert ExecCarry(r, v) == r.(cp := c4) by {
      hide Masked, AllOnes, SetCYF;
    }
    hide *;
    MaskedIsMod(r.x, r.cp);
    MaskedIsMod(r.y, r.cp);
    FourBits(v);
    SetFlag(r.cp, 0);
    SetFlag(c1, 1);
    SetFlag(c2, if over then 1 else 0);
    SetFlag(c3, 1);
  }

  lemma SetFlag(cp: Octet, b: nat)
    requires b < 2
    ensures SetCYF(cp, b) % 2 == b && SetCYF(cp, b) / 2 == cp / 2
  {
  }

  /** The length BIAS takes from its source, the operand length being cpl: FU, or FL, the length in scratchpad word 0,
      the smaller of the two, or of FL and the operand length, cut to 24; otherwise the operand length stays. */
  predicate LengthChosen(r: Regs, variant: nat, cpl: nat, n: nat) {
    var fu, fl, sfl := GetNib(r.fb, 0), FL(r.fb), r.pads[0].right % 0x1_0000;
    && n < 32
    && (variant == 0 ==> n == fu)
    && (variant == 1 ==> n == Min(24, fl))
    && (variant == 2 ==> n == Min(24, sfl))
    && (variant == 3 ==> n == Min(24, Min(fl, sfl)))
    && (variant == 5 && cpl <= 24 ==> n == Min(cpl, fl))
    && (variant == 5 && cpl > 24 ==> n == if fl > cpl then cpl else Min(24, fl))
    && (variant == 4 || variant >= 6 ==> n == cpl)
  }

  /** BIAS sets the unit from FU and the length from its source, and skips when asked to and the length is not zero. */
  lemma BiasSets(r: Regs, variant: nat, test: bool)
    ensures var r' := ExecBias(r, variant, test);
      && LengthChosen(r, variant, CPL(r.cp), CPL(r'.cp))
      && CPU(r'.cp) == (if GetNib(r.fb, 0) == 4 then 1 else 0) && r'.cp % 2 == r.cp % 2
      && r'.mar == if test && CPL(r'.cp) != 0 then Forward(r.mar, 1) else r.mar
  {
    BiasParts(r, variant, test);
    hide *;
    FieldsOfCp(r.cp, BiasLength(r, variant), if GetNib(r.fb, 0) == 4 then 1 else 0);
    ChoosesLength(r, variant);
  }

  lemma BiasParts(r: Regs, variant: nat, test: bool)
    ensures var r', n := ExecBias(r, variant, test), BiasLength(r, variant);
      && r'.cp == SetCPL(SetCPU(r.cp, if GetNib(r.fb, 0) == 4 then 1 else 0), n)
      && r'.mar == if test && n != 0 then Forward(r.mar, 1) else r.mar
  {
    hide GetNib, FL, BiasLength, Forward, SetCPL, SetCPU;
  }

  lemma ChoosesLength(r: Regs, variant: nat)
    ensures LengthChosen(r, variant, CPL(r.cp), BiasLength(r, variant)) && BiasLength(r, variant) < 32
  {
    hide GetNib, FL;
  }

  lemma FieldsOfCp(cp: Octet, cpl: nat, cpu: nat)
    requires cpu < 2
    ensures var q := SetCPL(SetCPU(cp, cpu), cpl);
      q / 8 % 32 == cpl % 32 && CPL(q) == cpl % 32 && CPU(q) == cpu && q % 2 == cp % 2
  {
    var a, n, c := cp / 8, cpl % 32, cp % 2;
    assert SetCPU(cp, cpu) == a * 8 + cpu * 2 + c;
    assert SetCPL(a * 8 + cpu * 2 + c, cpl) == n * 8 + cpu * 2 + c;
    ThreeFields(n, cpu, c);
  }

  lemma ThreeFields(n: nat, u: nat, c: nat)
    requires n < 32 && u < 4 && c < 2
    ensures var q := n * 8 + u * 2 + c; q / 8 % 32 == n && q / 2 % 4 == u && q % 2 == c
  {
  }

  /** BIAS and the function box together: after BIAS BY FL the sum and its carry are those of FL-bit numbers. */
  lemma BiasThenSum(r: Regs)
    requires 0 < FL(r.fb) < 24 && GetNib(r.fb, 0) != 4
    ensures var r', p := ExecBias(r, 1, false), Pow2(FL(r.fb));
      && Sum(r'.x, r'.y, r'.cp) == (r.x + r.y) % p && Diff(r'.x, r'.y, r'.cp) == (r.x - r.y) % p
      && (ExecCarry(r', 4).cp % 2 == 1 <==> r.x % p + r.y % p >= p)
  {
    hide *;
    var r' := ExecBias(r, 1, false);
    BiasKeepsXY(r);
    BiasSets(r, 1, false);
    LengthIsFL(r, r'.cp);
    BinaryBox(r.x, r.y, r'.cp);
    CarryIsOverflow(r', 4);
    FourBits(4);
  }

  lemma BiasKeepsXY(r: Regs)
    ensures ExecBias(r, 1, false).x == r.x && ExecBias(r, 1, false).y == r.y
  {
    hide GetNib, FL, BiasLength, Forward, SetCPL, SetCPU;
  }

  lemma LengthIsFL(r: Regs, cp: Octet)
    requires LengthChosen(r, 1, CPL(r.cp), CPL(cp)) && 0 < FL(r.fb) < 24 && CPU(cp) == 0
    ensures Modulus(cp) == Pow2(FL(r.fb)) && cp / 2 % 4 == 0
  {
    hide GetNib, FL, Pow2;
  }

  // ----- four-bit arithmetic -----

  /** INC-T and DEC-T skip exactly on overflow and underflow: result and skip together are the exact value. */
  lemma NibbleCarries(cur: Nib, lit: Nib)
    ensures NibbleResult(5, cur, lit) + 16 * B(NibbleSkips(5, cur, lit)) == cur + lit
    ensures NibbleResult(7, cur, lit) - 16 * B(NibbleSkips(7, cur, lit)) == cur - lit
  {
  }

  /** The clearing skips leave no masked bit set. */
  lemma {:induction false} ClearsMask(v: nat, mask: nat, n: nat)
    requires v < Pow2(n) && mask < Pow2(n)
    ensures BitAnd(BitAnd(v, Pow2(n) - 1 - mask), mask) == 0
  {
    var c := Pow2(n) - 1 - mask;
    if n > 0 && v > 0 && c > 0 {
      var a := BitAnd(v, c);
      ClearsMask(v / 2, mask / 2, n - 1);
      assert c / 2 == Pow2(n - 1) - 1 - mask / 2 && (c % 2 == 0 <==> mask % 2 == 1);
      assert a == 2 * BitAnd(v / 2, c / 2) + (v % 2) * (c % 2);
      Parity(v % 2, c % 2, mask % 2, BitAnd(v / 2, c / 2));
      hide BitAnd;
      HalfAnd(a, mask);
    }
  }

  lemma Parity(x: nat, y: nat, z: nat, h: nat)
    requires x < 2 && y < 2 && z < 2 && y + z == 1
    ensures (2 * h + x * y) / 2 == h && ((2 * h + x * y) % 2) * z == 0
  {
    if y == 0 {
      assert x * y == 0;
    } else {
      assert x * y == x;
    }
  }

  lemma HalfAnd(a: nat, b: nat)
    ensures BitAnd(a / 2, b / 2) == 0 && (a % 2) * (b % 2) == 0 ==> BitAnd(a, b) == 0
  {
  }

  // ----- shifts, exchanges, counts -----

  /** X and Y shift as one 48-bit register. */
  lemma ShiftsTogether(r: Regs, right: bool)
    ensures var r' := ExecShiftConcat(r, right); var v := r.x * K24 + r.y;
      r'.x * K24 + r'.y == if right then v / 2 else v * 2 % (K24 * K24)
  {
    if right {
      assert r.x == r.x / 2 * 2 + r.x % 2;
    } else {
      var hi, lo := r.x * 2 / K24, r.x * 2 % K24;
      var carry, y := r.y / 0x80_0000, r.y * 2 % K24;
      assert r.x * K24 * 2 + r.y * 2 == hi * (K24 * K24) + ((lo + carry) * K24 + y);
      DivMod(hi, (lo + carry) * K24 + y, K24 * K24);
    }
  }

  /** Exchanging with the same scratchpad word twice changes nothing. */
  lemma ExchangeTwice(r: Regs, k: nat)
    requires k < 16
    ensures ExecExchange(ExecExchange(r, k, k), k, k) == r
  {
    var r' := ExecExchange(ExecExchange(r, k, k), k, k);
    assert r'.pads == r.pads;
  }

  /** Relating FA by a scratchpad word one way and the other changes nothing. */
  lemma RelateBack(r: Regs, pad: nat, neg: bool)
    ensures ExecRelate(ExecRelate(r, pad, neg), pad, !neg) == r
  {
  }

  /** FA up, FL down is undone by FA down, FL up, as long as FL was not cut at zero. */
  lemma CountBack(r: Regs, n: nat)
    requires n <= FL(r.fb)
    ensures CountFaFl(CountFaFl(r, 3, n), 4, n) == r
  {
    hide FL, SetFL;
    var fl := FL(r.fb);
    SetBack(r.fb, fl - n, fl);
    FaBack(r.fa, n);
  }

  lemma SetBack(fb: Word, a: nat, fl: nat)
    requires a < K16 && fl == FL(fb)
    ensures FL(SetFL(fb, a)) == a && SetFL(SetFL(fb, a), fl) == fb
  {
  }

  lemma FaBack(fa: Word, n: nat)
    ensures ((fa + n) % K24 - n) % K24 == fa
  {
    Decimal.AddThenSubtract(fa, n, K24);
  }

  /** The two parts of a rotation by n: p is 2^n, q is 2^(24-n). */
  lemma RotationParts(v: Word, n: nat)
    requires 0 < n < 24
    ensures Pow2(n) * Pow2(24 - n) == K24
    ensures RotateLeft(v, n) == v % Pow2(24 - n) * Pow2(n) + v / Pow2(24 - n)
    ensures RotateRight(v, n) == v % Pow2(n) * Pow2(24 - n) + v / Pow2(n)
  {
    hide Pow2, Shr;
    Pow2Add(n, 24 - n);
    FullPower();
    RotatedPart(v, n, 24 - n);
    RotatedPart(v, 24 - n, n);
  }

  lemma FullPower()
    ensures Pow2(24) == K24
  {
    Pow2Values();
  }

  lemma RotatedPart(v: Word, n: nat, k: nat)
    requires Pow2(n) * Pow2(k) == K24
    ensures (ShiftLeft(v, n) + ShiftRight(v, k)) % K24 == v % Pow2(k) * Pow2(n) + v / Pow2(k)
  {
    hide Pow2, Shr;
    var p, q := Pow2(n), Pow2(k);
    var hi, lo := v / q, v % q;
    ShrIsDiv(v, k);
    LeftPart(hi, lo, p, q);
    Quotient(v, p, q);
    RotatedRange(lo, hi, p, q);
  }

  lemma Quotient(v: Word, p: nat, q: nat)
    requires p * q == K24 && q > 0
    ensures v / q < p && v == v / q * q + v % q
  {
    var hi := v / q;
    if hi >= p {
      MulMonotone(q, p, hi);
    }
  }

  /** Rotations either way undo each other. */
  lemma RotatesBack(v: Word, n: nat)
    requires 0 < n < 24
    ensures RotateRight(RotateLeft(v, n), n) == v
  {
    hide Pow2, RotateLeft, RotateRight;
    var p, q := Pow2(n), Pow2(24 - n);
    RotationParts(v, n);
    RotationParts(RotateLeft(v, n), n);
    Quotient(v, p, q);
    DivMod(v % q, v / q, p);
  }

  lemma {:induction false} ShrIsDiv(v: nat, n: nat)
    ensures Shr(v, n) == v / Pow2(n)
  {
    if n > 0 {
      ShrIsDiv(v / 2, n - 1);
      DivDiv(v, 2, Pow2(n - 1));
    }
  }

  /** Shifting hi*q + lo left by p drops hi. */
  lemma LeftPart(hi: nat, lo: nat, p: nat, q: nat)
    requires p * q == K24 && lo < q
    ensures (hi * q + lo) * p % K24 == lo * p < K24
  {
    assert (hi * q + lo) * p == hi * K24 + lo * p by {
      assert hi * q * p == hi * (q * p);
    }
    assert lo * p + p <= q * p by {
      MulMonotone(p, lo + 1, q);
    }
    assert p > 0;
    DivMod(hi, lo * p, K24);
  }

  lemma RotatedRange(lo: nat, hi: nat, p: nat, q: nat)
    requires p * q == K24 && lo < q && hi < p
    ensures lo * p + hi < K24 && (lo * p + hi) % K24 == lo * p + hi
  {
    MulMonotone(p, lo + 1, q);
    DivMod(0, lo * p + hi, K24);
  }
}
