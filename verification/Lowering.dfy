/** Each lowered word does on the machine what its source line means. */
module Lowering {
  import opened Bits
  import opened BitMemory
  import opened Isa
  import opened Registers
  import opened Machine
  import opened Mil
  import opened AStack

  /** The machine registers hold the source-level values. */
  predicate Same(r: Regs, c: Mil) {
    && r.x == c.x && r.y == c.y && r.t == c.t && r.l == c.l
    && r.fa == c.fa && r.fb == c.fb && r.cp == c.cp
    && r.pads == c.pads && r.halted == c.halted
  }

  /** r' differs from r in source-level registers only. */
  predicate SameControl(r: Regs, r': Regs) {
    r'.mar == r.mar && r'.stack == r.stack && r'.sp == r.sp && r'.depth == r.depth && r'.lat == r.lat
  }

  lemma ReadsName(r: Regs, c: Mil, n: Name)
    requires Same(r, c)
    ensures ReadReg(r, RegAddr(n).0, RegAddr(n).1) == Get(c, n)
  {
  }

  lemma WritesName(r: Regs, c: Mil, n: Name, v: Word)
    requires Same(r, c) && IsRegister(n)
    ensures var r' := WriteReg(r, RegAddr(n).0, RegAddr(n).1, v); Same(r', Set(c, n, v)) && SameControl(r, r')
  {
  }

  lemma ExecutesMove(r: Regs, c: Mil, src: Name, dst: Name)
    requires Same(r, c) && IsRegister(dst)
    ensures var r' := ExecRegs(MoveOp(src, dst), r); Same(r', Set(c, dst, Get(c, src))) && SameControl(r, r')
  {
    ReadsName(r, c, src);
    WritesName(r, c, dst, Get(c, src));
    hide ReadReg, WriteReg, Get, Set, Same, SameControl;
  }

  lemma ExecutesLoadPad(r: Regs, c: Mil, k: nat, right: bool, dst: Name)
    requires Same(r, c) && IsRegister(dst) && k < 16
    ensures var (g, s) := RegAddr(dst);
      var r' := ExecRegs(PadMove(k, right, true, s, g), r);
      Same(r', Set(c, dst, if right then c.pads[k].right else c.pads[k].left)) && SameControl(r, r')
  {
    var v := if right then c.pads[k].right else c.pads[k].left;
    assert v == (if right then r.pads[k].right else r.pads[k].left);
    WritesName(r, c, dst, v);
    hide ReadReg, WriteReg, Get, Set, Same, SameControl;
  }

  lemma ExecutesStorePad(r: Regs, c: Mil, src: Name, k: nat, right: bool)
    requires Same(r, c) && k < 16
    ensures var (g, s) := RegAddr(src);
      var r' := ExecRegs(PadMove(k, right, false, s, g), r);
      var p := if right then c.pads[k].(right := Get(c, src)) else c.pads[k].(left := Get(c, src));
      Same(r', c.(pads := c.pads[k := p])) && SameControl(r, r')
  {
    ReadsName(r, c, src);
    hide ReadReg, WriteReg, Get, Set;
  }

  lemma ExecutesLit8(r: Regs, c: Mil, v: Word, dst: Name)
    requires Same(r, c) && v < 256 && (dst == T || dst == FA || dst == FB)
    ensures var r' := ExecRegs(Lit8(RegAddr(dst).0, v), r); Same(r', Set(c, dst, v)) && SameControl(r, r')
  {
    WritesName(r, c, dst, v);
    hide WriteReg, Set, Same, SameControl;
  }

  // ----- counting -----

  /** What a count variant does to FA and FB is what the directions say. */
  predicate CountsAs(w: Counts, fa: Word, fb: Word, n: nat) {
    CountFa(CountCode(w), fa, n) == FaCounted(w.fa, fa, n) && CountFb(CountCode(w), fb, n) == FbCounted(w.fl, fb, n)
  }

  /** Not both registers up. */
  predicate Countable(w: Counts) {
    w != Counts(Inc, Inc)
  }

  lemma CountsMean(w: Counts, fa: Word, fb: Word, n: nat)
    requires Countable(w)
    ensures CountsAs(w, fa, fb, n)
  {
  }

  /** The directions that are compiled to what they say are all but INC FA with INC FL, which leaves FA alone. */
  lemma CountsExact(w: Counts)
    ensures (forall fa: Word, fb: Word, n: nat :: CountsAs(w, fa, fb, n)) <==> Countable(w)
  {
    if Countable(w) {
      forall fa: Word, fb: Word, n: nat
        ensures CountsAs(w, fa, fb, n)
      {
        CountsMean(w, fa, fb, n);
      }
    } else {
      assert !CountsAs(w, 0, 0, 1);
    }
  }

  // ----- branches -----

  /** A branch or call encoded for word a and executed there reaches word t exactly when the displacement
      fits its twelve bits. */
  lemma BranchLands(a: nat, t: nat)
    requires a + 1 < 0x8000 && t < 0x8000
    ensures var d := t - (a + 1);
      Jump(16 * (a + 1), d < 0, Abs(d) % 0x1000) == 16 * t <==> Abs(d) < 0x1000
  {
    var d := t - (a + 1);
    var k := Abs(d) % 0x1000;
    var from := 16 * (a + 1);
    if d < 0 {
      assert 0 <= from - 16 * k < 0x8_0000;
      SmallMod(from - 16 * k);
    } else {
      assert from + 16 * k < 0x8_0000;
      SmallMod(from + 16 * k);
    }
  }

  lemma SmallMod(n: nat)
    requires n < 0x8_0000
    ensures n % 0x8_0000 == n
  {
  }

  // ----- conditions -----

  lemma XycnBits(x: Word, y: Word, cp: Octet)
    ensures var v := XYCN(x, y, cp);
      && NibbleBit(v, 0) == (Masked(x, cp) > Masked(y, cp))
      && NibbleBit(v, 1) == (Masked(x, cp) < Masked(y, cp))
      && NibbleBit(v, 2) == (Masked(x, cp) == Masked(y, cp))
  {
    hide Masked, Bit, Width;
  }

  lemma FlcnBit(fb: Word, pad: Pad)
    ensures NibbleBit(FLCN(fb, pad), 0) == (FL(fb) == 0)
  {
    hide FL;
  }

  /** The value a parsed condition looks at. */
  function Tested(r: Regs, p: Parsed): nat {
    ReadReg(r, p.g, p.s % 2) % 16
  }

  /** The parsed condition is fulfilled by the nibble v. */
  predicate ParsedHolds(p: Parsed, v: nat) {
    match p
    case BitTest(_, _, bit, negate) => NibbleBit(v, bit) != negate
    case MultiBit(_, _, mask, negate) => (if mask != 0 then BitAnd(v, mask) != 0 else v == 0) != negate
  }

  /** The conditions of IF that are compiled to what they say: T(8) to T(15) would need a two-bit select, an ordering
      with Y on the left tests the bit of X on the left, and a comparison with a nonzero nibble tests for any of its
      bits. ConditionsExact shows that there are no others. */
  predicate CondOk(c: Cond) {
    match c.test
    case TBit(n) => n < 8 || 16 <= n < 24
    case YX(rel) => rel == Eql || rel == Neq
    case NibIs(_, v, _) => v == 0
    case _ => true
  }

  /** The same for SKIP WHEN, which compares nibbles exactly and knows no bits of T. */
  predicate SkipOk(c: Cond) {
    match c.test
    case TBit(_) => false
    case YX(rel) => rel == Eql || rel == Neq
    case _ => true
  }

  /** The conditions IF accepts. */
  predicate Parses(c: Cond) {
    c.test.TBit? ==> c.test.n < 24
  }

  lemma OkParses(c: Cond)
    ensures CondOk(c) ==> Parses(c)
  {
  }

  lemma IfOpPacks(c: Cond)
    requires Parses(c)
    ensures Packable(IfOp(c)) && Packable(Invert(IfOp(c)))
  {
  }

  lemma SkipOpPacks(c: Cond)
    requires !c.test.TBit?
    ensures Packable(SkipOp(c))
  {
  }

  lemma {:induction false} AndOnes(v: nat, n: nat)
    requires v < Pow2(n)
    ensures BitAnd(v, Pow2(n) - 1) == v
  {
    if n > 0 && v > 0 {
      AndOnes(v / 2, n - 1);
      assert (Pow2(n) - 1) / 2 == Pow2(n - 1) - 1 && (Pow2(n) - 1) % 2 == 1;
    }
  }

  lemma NibbleTested(r: Regs, p: Parsed, v: Nib)
    requires ReadReg(r, p.g, p.s % 2) == v
    ensures Tested(r, p) == v
  {
    hide ReadReg;
  }

  lemma ParsesRelation(rel: Relation, isFalse: bool, r: Regs)
    ensures var p := ParseRelation(rel, isFalse);
      ParsedHolds(p, Tested(r, p)) == (Related(rel, Masked(r.x, r.cp), Masked(r.y, r.cp)) != isFalse)
  {
    XycnBits(r.x, r.y, r.cp);
    assert ReadReg(r, 12, 1) == XYCN(r.x, r.y, r.cp);
    var p := ParseRelation(rel, isFalse);
    hide XYCN, Masked, ReadReg, NibbleBit, Tested;
    NibbleTested(r, p, XYCN(r.x, r.y, r.cp));
  }

  /** The bit tests of the machine count the bits of a nibble from its most significant one. */
  lemma NibbleBitIs(v: Nib, bit: nat)
    requires bit < 4
    ensures NibbleBit(v, bit) == Bit(v, 3 - bit)
  {
    FourBits(v);
    hide Bit;
  }

  lemma ShrNibbles(t: Word)
    ensures Shr(t, 0) == t && Shr(t, 4) == t / 0x10 && Shr(t, 8) == t / 0x100 && Shr(t, 12) == t / 0x1000
    ensures Shr(t, 16) == t / 0x1_0000 && Shr(t, 20) == t / 0x10_0000
  {
    assert Shr(t, 0) == t;
    hide Shr;
    ShrFour(t);
    ShrAdd(t, 4, 4);
    ShrFour(t / 0x10);
    ShrAdd(t, 8, 4);
    ShrFour(t / 0x100);
    ShrAdd(t, 12, 4);
    ShrFour(t / 0x1000);
    ShrAdd(t, 16, 4);
    ShrFour(t / 0x1_0000);
  }

  /** Bit i of nibble k is a bit of the register. */
  lemma BitOfNibble(t: Word, k: nat, i: nat)
    requires k < 6 && i < 4
    ensures Bit(GetNib(t, k), i) == Bit(t, 4 * (5 - k) + i)
  {
    var v := Shr(t, 4 * (5 - k));
    assert GetNib(t, k) == v % 16 by {
      ShrNibbles(t);
      hide Shr;
    }
    ShiftedBit(t, 4 * (5 - k), i);
    assert Pow2(4) == 16;
    LowBit(v, 4, i);
  }

  lemma BitOfTIs(t: Word, n: nat)
    requires n < 24
    ensures NibbleBit(GetNib(t, n / 4), n % 4) == BitOfT(t, n)
  {
    hide GetNib, Bit, NibbleBit;
    NibbleBitIs(GetNib(t, n / 4), n % 4);
    BitOfNibble(t, n / 4, 3 - n % 4);
  }

  lemma ParsesBitOfT(n: nat, isFalse: bool, r: Regs)
    requires n < 8 || 16 <= n < 24
    ensures var p := ParseCondition(Cond(TBit(n), isFalse)); ParsedHolds(p, Tested(r, p)) == (BitOfT(r.t, n) != isFalse)
  {
    var p := ParseCondition(Cond(TBit(n), isFalse));
    assert ReadReg(r, p.g, p.s % 2) == GetNib(r.t, n / 4);
    assert p.bit == n % 4;
    BitOfTIs(r.t, n);
    hide ReadReg, NibbleBit, GetNib, Tested, BitOfT;
    NibbleTested(r, p, GetNib(r.t, n / 4));
  }

  lemma ReadsNibble(nib: NibName, r: Regs)
    ensures ReadReg(r, NibAddr(nib).0, NibAddr(nib).1 % 2) == NibValue(nib, r.t, r.l, r.fb)
  {
  }

  lemma ParseOfNibble(nib: NibName, v: Nib, eq: bool, isFalse: bool)
    ensures var p := ParseCondition(Cond(NibIs(nib, v, eq), isFalse));
      && p.MultiBit? && p.g == NibAddr(nib).0 && p.s == NibAddr(nib).1
      && (if nib == FT && v == 0 && !eq then p.mask == 15 && p.negate == isFalse
          else p.mask == v && p.negate == (isFalse == eq))
  {
  }

  lemma HoldsMask(p: Parsed, n: Nib)
    requires p.MultiBit?
    ensures p.mask == 0 ==> ParsedHolds(p, n) == ((n == 0) != p.negate)
    ensures p.mask == 15 ==> ParsedHolds(p, n) == ((n != 0) != p.negate)
    ensures p.mask != 0 ==> ParsedHolds(p, n) == ((BitAnd(n, p.mask) != 0) != p.negate)
  {
    Pow2Values();
    AndOnes(n, 4);
    hide BitAnd;
  }

  /** FT NEQ 0 tests for any bit, the other comparisons with zero for zero. */
  lemma ParsesNibble(nib: NibName, v: Nib, eq: bool, isFalse: bool, r: Regs)
    ensures var c := Cond(NibIs(nib, v, eq), isFalse); var p, n := ParseCondition(c), NibValue(nib, r.t, r.l, r.fb);
      ParsedHolds(p, Tested(r, p))
        == (if v == 0 then ((n == 0) == eq) != isFalse else (BitAnd(n, v) != 0) == (eq != isFalse))
  {
    hide *;
    var n := NibValue(nib, r.t, r.l, r.fb);
    var p := ParseCondition(Cond(NibIs(nib, v, eq), isFalse));
    ParseOfNibble(nib, v, eq, isFalse);
    ReadsNibble(nib, r);
    NibbleTested(r, p, n);
    HoldsMask(p, n);
  }

  lemma ParsesFLZero(eq: bool, isFalse: bool, r: Regs)
    ensures var p := ParseCondition(Cond(FLZero(eq), isFalse));
      ParsedHolds(p, Tested(r, p)) == (((FL(r.fb) == 0) == eq) != isFalse)
  {
    FlcnBit(r.fb, r.pads[0]);
    assert ReadReg(r, 7, 1) == FLCN(r.fb, r.pads[0]);
    var p := ParseCondition(Cond(FLZero(eq), isFalse));
    hide ReadReg, FLCN, NibbleBit, FL, Tested;
    NibbleTested(r, p, FLCN(r.fb, r.pads[0]));
  }

  /** Parsing keeps the meaning of every supported condition. */
  lemma ParseKeepsMeaning(c: Cond, r: Regs)
    requires CondOk(c)
    ensures var p := ParseCondition(c);
      ParsedHolds(p, Tested(r, p)) == (TestHolds(c.test, r.x, r.y, r.t, r.l, r.fb, r.cp) != c.isFalse)
  {
    match c.test
    case XY(rel) => ParsesRelation(rel, c.isFalse, r);
    case YX(rel) => ParsesRelation(rel, c.isFalse, r);
    case TBit(n) => ParsesBitOfT(n, c.isFalse, r);
    case NibIs(nib, v, eq) => ParsesNibble(nib, v, eq, c.isFalse, r);
    case FLZero(eq) => ParsesFLZero(eq, c.isFalse, r);
  }

  /** The skip of a parsed condition skips exactly when the condition fails, its inversion exactly when
      it holds; nothing but the program counter changes. */
  lemma SkipSense(c: Cond, r: Regs)
    requires r.mar < 0x7_0000
    ensures var p := ParseCondition(c); var holds := ParsedHolds(p, Tested(r, p));
      && ExecRegs(IfOp(c), r) == (if holds then r else r.(mar := r.mar + 16))
      && ExecRegs(Invert(IfOp(c)), r) == (if holds then r.(mar := r.mar + 16) else r)
  {
    var p := ParseCondition(c);
    if p.BitTest? {
      BitSkipSense(r, p.g, p.s, p.bit, p.negate);
    } else {
      NibbleSkipSense(r, p.g, p.s, p.mask, p.negate);
    }
    hide ExecRegs, ParsedHolds, ReadReg, NibbleBit, BitAnd, ParseCondition, Tested;
  }

  lemma BitSkipSense(r: Regs, g: nat, s: nat, bit: nat, negate: bool)
    requires r.mar < 0x7_0000
    ensures var holds := NibbleBit(ReadReg(r, g, s % 2) % 16, bit) != negate;
      && ExecRegs(BitBranch(g, s % 2, bit, false, 1, negate), r) == (if holds then r else r.(mar := r.mar + 16))
      && ExecRegs(BitBranch(g, s % 2, bit, false, 1, !negate), r) == (if holds then r.(mar := r.mar + 16) else r)
  {
    SmallMod(r.mar + 16);
    hide ReadReg, NibbleBit;
  }

  lemma NibbleSkipSense(r: Regs, g: nat, s: nat, mask: nat, negate: bool)
    requires r.mar < 0x7_0000
    ensures var v := ReadReg(r, g, s % 2) % 16;
      var fn := if mask != 0 then (if negate then 0 else 4) else if negate then 1 else 5;
      var holds := (if mask != 0 then BitAnd(v, mask) != 0 else v == 0) != negate;
      && ExecRegs(Skip(g, s % 2, fn, mask), r) == (if holds then r else r.(mar := r.mar + 16))
      && ExecRegs(Skip(g, s % 2, (fn + 4) % 8, mask), r) == (if holds then r.(mar := r.mar + 16) else r)
  {
    hide *;
    var fn := if mask != 0 then (if negate then 0 else 4) else if negate then 1 else 5;
    SkipMeaning(ReadReg(r, g, s % 2) % 16, mask, negate);
    PlainSkip(r, g, s % 2, fn, mask);
    PlainSkip(r, g, s % 2, (fn + 4) % 8, mask);
  }

  lemma SkipMeaning(v: nat, mask: nat, negate: bool)
    ensures var fn := if mask != 0 then (if negate then 0 else 4) else if negate then 1 else 5;
      var holds := (if mask != 0 then BitAnd(v, mask) != 0 else v == 0) != negate;
      SkipTest(fn, v, mask) == !holds && SkipTest((fn + 4) % 8, v, mask) == holds
  {
    hide BitAnd;
  }

  lemma PlainSkip(r: Regs, g: nat, s: nat, fn: nat, mask: nat)
    requires r.mar < 0x7_0000 && fn != 3 && fn != 7
    ensures ExecRegs(Skip(g, s, fn, mask), r)
         == (if SkipTest(fn, ReadReg(r, g, s) % 16, mask) then r.(mar := r.mar + 16) else r)
  {
    SmallMod(r.mar + 16);
    hide ReadReg, SkipTest, WriteReg;
  }

  /** Structured conditions on the machine: for every supported condition, IF skips the next word exactly
      when the condition fails and IF ... BEGIN skips the branch around the block exactly when it holds. */
  lemma ExecutesIf(c: Cond, r: Regs, s: Mil)
    requires CondOk(c) && Same(r, s) && r.mar < 0x7_0000
    ensures ExecRegs(IfOp(c), r) == (if Holds(c, s) then r else r.(mar := r.mar + 16))
    ensures ExecRegs(Invert(IfOp(c)), r) == (if Holds(c, s) then r.(mar := r.mar + 16) else r)
  {
    hide ExecRegs, IfOp, Invert, ParseCondition, ParsedHolds, Tested, TestHolds;
    ParseKeepsMeaning(c, r);
    SkipSense(c, r);
  }

  lemma SkipOfNibble(nib: NibName, v: Nib, eq: bool, isFalse: bool, n: Nib)
    ensures NibAddr(nib).1 < 2
    ensures var fn := if eq != isFalse then 1 else 5;
      && SkipOp(Cond(NibIs(nib, v, eq), isFalse)) == Skip(NibAddr(nib).0, NibAddr(nib).1 % 2, fn, v)
      && SkipTest(fn, n, v) == (((n == v) == eq) != isFalse)
  {
    hide BitAnd;
  }

  lemma SkipsNibble(nib: NibName, v: Nib, eq: bool, isFalse: bool, r: Regs)
    requires r.mar < 0x7_0000
    ensures ExecRegs(SkipOp(Cond(NibIs(nib, v, eq), isFalse)), r)
      == (if ((NibValue(nib, r.t, r.l, r.fb) == v) == eq) != isFalse then r.(mar := r.mar + 16) else r)
  {
    hide *;
    ReadsNibble(nib, r);
    SkipOfNibble(nib, v, eq, isFalse, NibValue(nib, r.t, r.l, r.fb));
    PlainSkip(r, NibAddr(nib).0, NibAddr(nib).1 % 2, if eq != isFalse then 1 else 5, v);
  }

  /** SKIP WHEN on the machine: it skips the next word exactly when its condition holds. */
  lemma ExecutesSkip(c: Cond, r: Regs, s: Mil)
    requires SkipOk(c) && Same(r, s) && r.mar < 0x7_0000
    ensures ExecRegs(SkipOp(c), r) == (if Holds(c, s) then r.(mar := r.mar + 16) else r)
  {
    if c.test.NibIs? {
      SkipsNibble(c.test.nib, c.test.v, c.test.eq, c.isFalse, r);
      hide SkipOp, ExecRegs, NibValue;
    } else {
      assert CondOk(c) && SkipOp(c) == Invert(IfOp(c));
      hide *;
      ExecutesIf(c, r, s);
    }
  }

  // ----- which conditions are compiled to what they say -----

  predicate Meant(c: Cond, r: Regs) {
    TestHolds(c.test, r.x, r.y, r.t, r.l, r.fb, r.cp) != c.isFalse
  }

  /** The skip of IF goes to the next word in a machine state, which it should do exactly when the condition holds. */
  predicate GoesOn(c: Cond, r: Regs) {
    ExecRegs(IfOp(c), r) == r
  }

  lemma GoesOnWhenParsed(c: Cond, r: Regs)
    requires r.mar < 0x7_0000
    ensures var p := ParseCondition(c); GoesOn(c, r) <==> ParsedHolds(p, Tested(r, p))
  {
    hide ExecRegs, IfOp, ParsedHolds, ParseCondition, Tested, Invert;
    SkipSense(c, r);
  }

  /** `Y rel X` tests the bit of `X rel Y`: right for equality, and for an ordering exactly when the operands are
      equal. */
  lemma ReversedOperandsExact(rel: Relation, isFalse: bool, r: Regs)
    requires r.mar < 0x7_0000
    ensures GoesOn(Cond(YX(rel), isFalse), r) == Meant(Cond(YX(rel), isFalse), r)
      <==> rel == Eql || rel == Neq || Masked(r.x, r.cp) == Masked(r.y, r.cp)
  {
    GoesOnWhenParsed(Cond(YX(rel), isFalse), r);
    hide ParsedHolds, Tested, Masked, GoesOn;
    ParsesRelation(rel, isFalse, r);
  }

  lemma {:induction false} AndSelf(v: nat)
    ensures BitAnd(v, v) == v
  {
    if v > 0 {
      AndSelf(v / 2);
      assert v % 2 == 0 || v % 2 == 1;
    }
  }

  /** `IF nibble EQL v` with v > 0 tests for any of the bits of v: on a nibble n it is right exactly when n is v or has
      no bit of v, and so is NEQ. */
  lemma EqualityTestExact(nib: NibName, v: Nib, eq: bool, isFalse: bool, r: Regs)
    requires r.mar < 0x7_0000
    ensures var c, n := Cond(NibIs(nib, v, eq), isFalse), NibValue(nib, r.t, r.l, r.fb);
      GoesOn(c, r) == Meant(c, r) <==> v == 0 || n == v || BitAnd(n, v) == 0
  {
    var c, n := Cond(NibIs(nib, v, eq), isFalse), NibValue(nib, r.t, r.l, r.fb);
    GoesOnWhenParsed(c, r);
    AndSelf(v);
    ParsesNibble(nib, v, eq, isFalse, r);
    hide ParsedHolds, ParseCondition, Tested, BitAnd, GoesOn, NibValue;
  }

  /** Registers with the given X, T, L and FB. */
  function RegsWith(x: Word, t: Word, l: Word, fb: Word): Regs {
    Fresh().(x := x, t := t, l := l, fb := fb)
  }

  lemma RegsWithIs(x: Word, t: Word, l: Word, fb: Word)
    ensures var r := RegsWith(x, t, l, fb);
      r.x == x && r.y == 0 && r.t == t && r.l == l && r.fb == fb && r.cp == 0 && r.mar == 0
  {
    hide Zeros, BlankPads;
  }

  /** IF TA EQL 8 goes on when TA is 9. */
  lemma EqualityTestFails()
    ensures var c, r := Cond(NibIs(TA, 8, true), false), RegsWith(0, 0x90_0000, 0, 0); GoesOn(c, r) && !Meant(c, r)
  {
    var r := RegsWith(0, 0x90_0000, 0, 0);
    RegsWithIs(0, 0x90_0000, 0, 0);
    hide RegsWith;
    assert NibValue(TA, r.t, r.l, r.fb) == 9;
    assert BitAnd(9, 8) == 2 * BitAnd(4, 4) && BitAnd(4, 4) == 4 by {
      AndSelf(4);
    }
    hide BitAnd, GoesOn;
    EqualityTestExact(TA, 8, true, false, r);
  }

  /** T(8) to T(15) are tested in T(0) to T(7). */
  lemma MidParses(n: nat, isFalse: bool, r: Regs)
    requires 8 <= n < 16
    ensures var p := ParseCondition(Cond(TBit(n), isFalse));
      ReadReg(r, p.g, p.s % 2) == GetNib(r.t, n / 4 - 2) && p == BitTest(0, n / 4, n % 4, isFalse)
  {
  }

  lemma MidNibbles(k: nat, bit: nat)
    requires 2 <= k < 4 && bit < 4
    ensures GetNib(0xFF00, k - 2) == 0 && GetNib(0xFF00, k) == 15 && !NibbleBit(0, bit) && NibbleBit(15, bit)
  {
  }

  lemma MeantBit(n: nat, isFalse: bool, r: Regs)
    requires n < 24
    ensures Meant(Cond(TBit(n), isFalse), r) == (NibbleBit(GetNib(r.t, n / 4), n % 4) != isFalse)
  {
    BitOfTIs(r.t, n);
    hide NibbleBit, GetNib, BitOfT;
  }

  lemma HoldsBit(p: Parsed, v: nat)
    requires p.BitTest?
    ensures ParsedHolds(p, v) == (NibbleBit(v, p.bit) != p.negate)
  {
    hide NibbleBit;
  }

  lemma MidBitOfT(n: nat, isFalse: bool)
    requires 8 <= n < 16
    ensures var c, r := Cond(TBit(n), isFalse), RegsWith(0, 0xFF00, 0, 0);
      r.mar < 0x7_0000 && GoesOn(c, r) != Meant(c, r)
  {
    hide *;
    var c, r := Cond(TBit(n), isFalse), RegsWith(0, 0xFF00, 0, 0);
    RegsWithIs(0, 0xFF00, 0, 0);
    GoesOnWhenParsed(c, r);
    MidParses(n, isFalse, r);
    MidNibbles(n / 4, n % 4);
    NibbleTested(r, ParseCondition(c), 0);
    HoldsBit(ParseCondition(c), 0);
    MeantBit(n, isFalse, r);
  }

  ghost predicate CompiledAsMeant(c: Cond) {
    forall r: Regs :: r.mar < 0x7_0000 ==> GoesOn(c, r) == Meant(c, r)
  }

  lemma MeantByOk(c: Cond)
    requires CondOk(c)
    ensures CompiledAsMeant(c)
  {
    hide GoesOn, Meant, CondOk, ParsedHolds, ParseCondition, Tested, TestHolds;
    forall r: Regs | r.mar < 0x7_0000
      ensures GoesOn(c, r) == Meant(c, r)
    {
      GoesOnWhenParsed(c, r);
      ParseKeepsMeaning(c, r);
      MeantIs(c, r);
    }
  }

  lemma MeantIs(c: Cond, r: Regs)
    ensures Meant(c, r) == (TestHolds(c.test, r.x, r.y, r.t, r.l, r.fb, r.cp) != c.isFalse)
  {
  }

  /** The bit tests of T that are right in every machine state are exactly those outside T(8) to T(15). */
  lemma TestsOfTExact(n: nat, isFalse: bool)
    requires n < 24
    ensures CompiledAsMeant(Cond(TBit(n), isFalse)) <==> n < 8 || 16 <= n
  {
    hide GoesOn, Meant;
    if n < 8 || 16 <= n {
      MeantByOk(Cond(TBit(n), isFalse));
    } else {
      MidBitOfT(n, isFalse);
    }
  }

  lemma EveryNibble(nib: NibName)
    ensures NibValue(nib, 0x11_1111, 0x11_1111, 0x11_1111) == 1
    ensures NibValue(nib, 0xFF_FFFF, 0xFF_FFFF, 0xFF_FFFF) == 15
  {
    assert forall k: nat :: k < 6 ==> GetNib(0x11_1111, k) == 1 && GetNib(0xFF_FFFF, k) == 15;
    hide GetNib;
  }

  lemma Unmasked(v: Word)
    ensures Masked(v, 0) == v
  {
  }

  lemma OrderingFails(rel: Relation, isFalse: bool)
    requires rel != Eql && rel != Neq
    ensures var c, r := Cond(YX(rel), isFalse), RegsWith(1, 0, 0, 0); r.mar < 0x7_0000 && GoesOn(c, r) != Meant(c, r)
  {
    var r := RegsWith(1, 0, 0, 0);
    hide *;
    RegsWithIs(1, 0, 0, 0);
    Unmasked(1);
    Unmasked(0);
    ReversedOperandsExact(rel, isFalse, r);
  }

  /** A nibble that is not v but has one of its bits, in every nibble of T, L and FB. */
  lemma AnyBitFails(nib: NibName, v: Nib, eq: bool, isFalse: bool) returns (r: Regs)
    requires v > 0
    ensures var c := Cond(NibIs(nib, v, eq), isFalse); r.mar < 0x7_0000 && GoesOn(c, r) != Meant(c, r)
  {
    var w := if v == 15 then 0x11_1111 else 0xFF_FFFF;
    r := RegsWith(0, w, w, w);
    hide *;
    RegsWithIs(0, w, w, w);
    EveryNibble(nib);
    SharesBit(v);
    EqualityTestExact(nib, v, eq, isFalse, r);
  }

  lemma {:induction false} AndSymmetric(a: nat, b: nat)
    ensures BitAnd(a, b) == BitAnd(b, a)
  {
    if a > 0 && b > 0 {
      AndSymmetric(a / 2, b / 2);
      assert (a % 2) * (b % 2) == (b % 2) * (a % 2);
    }
  }

  lemma SharesBit(v: Nib)
    requires v > 0
    ensures BitAnd(if v == 15 then 1 else 15, v) != 0
  {
    AndSymmetric(v, if v == 15 then 1 else 15);
    Pow2Values();
    AndOnes(v, 4);
    assert BitAnd(15, 1) == B(true) + 2 * BitAnd(7, 0);
  }

  /** The conditions of IF that are compiled to what they say, in every machine state, are exactly the ones of
      CondOk. */
  lemma ConditionsExact(c: Cond)
    requires Parses(c)
    ensures CompiledAsMeant(c) <==> CondOk(c)
  {
    hide GoesOn, Meant, RegsWith;
    if CondOk(c) {
      MeantByOk(c);
    } else {
      match c.test
      case TBit(n) => TestsOfTExact(n, c.isFalse);
      case YX(rel) => OrderingFails(rel, c.isFalse);
      case NibIs(nib, v, eq) => var r := AnyBitFails(nib, v, eq, c.isFalse);
    }
  }
}
