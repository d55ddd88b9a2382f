/** The image of an assembled program: its words as bits, and the micro-store after loading them. */
module MicroImage {
  import opened Bits
  import opened BitMemory
  import opened Isa
  import opened Registers
  import opened Mil
  import opened Lowering
  import opened Simulation
  import FortMicrocode
  import CalcMicrocode
  import MilAssembler
  import Storage

  /** Operands in the ranges of their fields. */
  predicate Plain(l: Line) {
    match l
    case LoadPad(k, _, _) => k < 16
    case StorePad(_, k, _) => k < 16
    case StoreF(k) => k < 16
    case ReadBits(n, _, _, _) => n < 32
    case WriteBits(n, _, _) => n < 32
    case CountBy(w, n) => CountCode(w) > 0 && n < 32
    case Xch(a, b) => a < 16 && b < 16
    case IfGoTo(c, _) => Parses(c)
    case IfThen(c) => Parses(c)
    case SkipWhen(c) => !c.test.TBit?
    case _ => true
  }

  lemma BranchFits(a: nat, t: nat, call: bool)
    ensures Encode(BranchTo(a, t, call)) < 0x1_0000
  {
    DecodeEncode(BranchTo(a, t, call));
    hide Decode, Encode;
  }

  lemma SkipFits(c: Cond)
    requires Parses(c)
    ensures Encode(IfOp(c)) < 0x1_0000 && Encode(Invert(IfOp(c))) < 0x1_0000
  {
    hide *;
    IfOpPacks(c);
    DecodeEncode(IfOp(c));
    DecodeEncode(Invert(IfOp(c)));
  }

  lemma SkipWhenFits(c: Cond)
    requires !c.test.TBit?
    ensures Encode(SkipOp(c)) < 0x1_0000
  {
    hide *;
    SkipOpPacks(c);
    DecodeEncode(SkipOp(c));
  }

  lemma MovesFit(src: Name, dst: Name, k: nat, right: bool)
    requires k < 16
    ensures var (g, s), (dg, ds) := RegAddr(src), RegAddr(dst);
      Encode(MoveOp(src, dst)) < 0x1_0000 && Encode(PadMove(k, right, true, ds, dg)) < 0x1_0000
      && Encode(PadMove(k, right, false, s, g)) < 0x1_0000
  {
  }

  lemma LitFits(v: Word, dst: Name, k: nat)
    requires k < |LitWords(v, dst)|
    ensures LitWords(v, dst)[k] < 0x1_0000
  {
  }

  lemma OtherFits(p: Program, i: nat)
    requires i < |p| && Plain(p[i])
    requires !(p[i].GoTo? || p[i].CallTo? || p[i].Begin? || p[i].IfThen? || p[i].SkipWhen?)
    requires !(p[i].Move? || p[i].LoadPad? || p[i].StorePad?)
    ensures Encode(LineOp(p, i)) < 0x1_0000
  {
  }

  lemma OpFits(p: Program, i: nat)
    requires i < |p| && Plain(p[i])
    ensures Encode(LineOp(p, i)) < 0x1_0000
  {
    match p[i]
    case GoTo(l) => BranchFits(AddrOf(p, i), LabelAddr(p, l), false); hide *; OpIsBranch(p, i, l);
    case CallTo(l) => BranchFits(AddrOf(p, i), LabelAddr(p, l), true); hide *; OpIsBranch(p, i, l);
    case Begin =>
      BranchFits(AddrOf(p, i), AddrOf(p, FindEnd(p, i + 1, 0)), false);
      hide Encode, BranchTo, AddrOf, FindEnd;
    case IfThen(c) => SkipFits(c); hide Encode, IfOp, Invert, OpensBlock;
    case SkipWhen(c) => SkipWhenFits(c); hide Encode, SkipOp;
    case Move(src, dst) => MovesFit(src, dst, 0, false); hide Encode, MoveOp;
    case LoadPad(k, right, dst) => MovesFit(X, dst, k, right); hide Encode, RegAddr;
    case StorePad(src, k, right) => MovesFit(src, X, k, right); hide Encode, RegAddr;
    case _ => hide *; OtherFits(p, i);
  }

  lemma OpIsBranch(p: Program, i: nat, l: nat)
    requires i < |p|
    ensures p[i] == GoTo(l) ==> LineOp(p, i) == BranchTo(AddrOf(p, i), LabelAddr(p, l), false)
    ensures p[i] == CallTo(l) ==> LineOp(p, i) == BranchTo(AddrOf(p, i), LabelAddr(p, l), true)
  {
    hide BranchTo, AddrOf, LabelAddr;
  }

  /** Every word of a plain line is a 16-bit word. */
  lemma LineFits(p: Program, i: nat, k: nat)
    requires i < |p| && Plain(p[i]) && k < Size(p[i])
    ensures LineWords(p, i)[k] < 0x1_0000
  {
    match p[i]
    case Lit(v, dst) => LitFits(v, dst, k); hide LitWords;
    case StoreF(n) => MovesFit(FA, FA, n, false); MovesFit(FB, FB, n, true); hide Encode;
    case IfGoTo(c, l) => SkipFits(c); BranchFits(AddrOf(p, i) + 1, LabelAddr(p, l), false);
      hide Encode, IfOp, BranchTo, AddrOf, LabelAddr, Parses;
    case _ => OpFits(p, i); hide Encode, LineOp;
  }

  /** Every line is plain. */
  predicate AllPlain(p: Program) {
    forall i :: 0 <= i < |p| ==> Plain(p[i])
  }

  lemma {:induction false} LayoutFits(p: Program, i: nat)
    requires i <= |p| && AllPlain(p)
    ensures forall a :: 0 <= a < |Layout(p, i)| ==> Layout(p, i)[a] < 0x1_0000
  {
    hide LineWords, Plain;
    if i > 0 {
      LayoutFits(p, i - 1);
      var w := LineWords(p, i - 1);
      forall k | 0 <= k < |w|
        ensures w[k] < 0x1_0000
      {
        LineFits(p, i - 1, k);
      }
    }
  }

  // ----- the image -----

  /** The words one after the other, most significant bit first. */
  function Image(w: seq<nat>): (b: seq<bool>)
    ensures |b| == 16 * |w|
  {
    seq(16 * |w|, i requires 0 <= i < 16 * |w| => Bit(w[i / 16], 15 - i % 16))
  }

  lemma {:induction false} FetchImage(w: seq<nat>, m: Mem, a: nat, k: nat)
    requires a < |w| && w[a] < 0x1_0000 && k <= 16
    requires forall i: nat :: i < 16 * |w| ==> BitAt(m, i) == Image(w)[i]
    ensures ReadField(m, 16 * a, k, false) == Shr(w[a], 16 - k)
  {
    if k == 0 {
      Pow2Values();
      ShrOfSmall(w[a], 16);
    } else {
      FetchImage(w, m, a, k - 1);
      ShrStep(w[a], 16 - k);
      var i := 16 * a + k - 1;
      assert FieldAddr(16 * a, k - 1, false) == i && i / 16 == a && i % 16 == k - 1;
      assert BitAt(m, i) == Image(w)[i];
    }
  }

  /** A memory that begins with the image has the program loaded. */
  lemma ImageLoads(p: Program, m: Mem)
    requires AllPlain(p) && 16 * |Code(p)| <= |m|
    requires forall i: nat :: i < 16 * |Code(p)| ==> BitAt(m, i) == Image(Code(p))[i]
    ensures Loaded(p, m)
  {
    hide Bit, ReadField, AllPlain, Layout, Image;
    LayoutFits(p, |p|);
    forall a: nat | a < |Code(p)|
      ensures FetchMicro(m, 16 * a) == Code(p)[a]
    {
      FetchImage(Code(p), m, a, 16);
    }
  }

  /** The octets of a word hold its bits. */
  lemma OctetBits(w: nat, k: nat)
    requires k < 8 && w < 0x1_0000
    ensures Bit(w / 256 % 256, k) == Bit(w, k + 8) && Bit(w % 256, k) == Bit(w, k)
  {
    assert Pow2(8) == 256 && Pow2(16) == 0x1_0000 by {
      Pow2Values();
    }
    ShiftedBit(w, 8, k);
    ShrEight(w);
    hide Shr;
    LowBit(w, 8, k);
  }

  lemma {:induction false} OctetAt(w: seq<nat>, k: nat)
    requires k < 2 * |w|
    ensures MilAssembler.Octets(w)[k] == if k % 2 == 0 then w[k / 2] / 256 % 256 else w[k / 2] % 256
  {
    if k < 2 * (|w| - 1) {
      OctetAt(w[..|w| - 1], k);
    }
  }

  lemma OctetPlace(i: nat)
    ensures i / 8 / 2 == i / 16 && 15 - i % 16 == (if i / 8 % 2 == 0 then 7 - i % 8 + 8 else 7 - i % 8)
  {
  }

  lemma OctetBit(w: seq<nat>, o: seq<Octet>, i: nat)
    requires i < 16 * |w| && w[i / 16] < 0x1_0000 && o == MilAssembler.Octets(w)
    ensures Bit(o[i / 8], 7 - i % 8) == Bit(w[i / 16], 15 - i % 16)
  {
    hide *;
    var v := w[i / 16];
    OctetAt(w, i / 8);
    OctetPlace(i);
    OctetBits(v, 7 - i % 8);
  }

  lemma SameBits(o: seq<Octet>, w: seq<nat>)
    requires |o| == 2 * |w| && forall i :: 0 <= i < 16 * |w| ==> Bit(o[i / 8], 7 - i % 8) == Bit(w[i / 16], 15 - i % 16)
    ensures Storage.BitsOf(o) == Image(w)
  {
    hide Bit;
    assert forall i :: 0 <= i < 16 * |w| ==> Storage.BitsOf(o)[i] == Image(w)[i];
  }

  /** The bits of the written file are those of the words. */
  lemma OctetsAreImage(w: seq<nat>)
    requires forall a :: 0 <= a < |w| ==> w[a] < 0x1_0000
    ensures Storage.BitsOf(MilAssembler.Octets(w)) == Image(w)
  {
    hide *;
    var o := MilAssembler.Octets(w);
    forall i | 0 <= i < 16 * |w|
      ensures Bit(o[i / 8], 7 - i % 8) == Bit(w[i / 16], 15 - i % 16)
    {
      OctetBit(w, o, i);
    }
    SameBits(o, w);
  }

  lemma WordsFit(p: Program)
    requires AllPlain(p)
    ensures forall a :: 0 <= a < |Code(p)| ==> Code(p)[a] < 0x1_0000
  {
    hide AllPlain, Layout;
    LayoutFits(p, |p|);
  }

  /** Loading the written file at address zero puts the program's words where the machine fetches them. */
  lemma FileLoads(p: Program, d: seq<Octet>)
    requires AllPlain(p) && 2 * |Code(p)| <= |d|
    ensures Loaded(p, Storage.BitsOf(MilAssembler.Octets(Code(p)) + d[2 * |Code(p)|..]))
  {
    hide Bit, AllPlain, Code, Loaded, MilAssembler.Octets;
    WordsFit(p);
    OctetsAreImage(Code(p));
    var o, n := MilAssembler.Octets(Code(p)), 16 * |Code(p)|;
    var m := Storage.BitsOf(o + d[2 * |Code(p)|..]);
    forall i: nat | i < n
      ensures BitAt(m, i) == Image(Code(p))[i]
    {
      assert m[i] == Storage.BitsOf(o)[i];
    }
    ImageLoads(p, m);
  }

  // ----- the interpreters -----

  lemma FortPlain(start: Word)
    ensures AllPlain(FortMicrocode.FortSource(start))
  {
    forall i | 0 <= i < 190
      ensures Plain(FortMicrocode.FortLine(start, i))
    {
    }
    hide FortMicrocode.FortLine, Plain;
  }

  lemma CalcPlain(start: Word, stack: Word)
    ensures AllPlain(CalcMicrocode.CalcSource(start, stack))
  {
    forall i | 0 <= i < 108
      ensures Plain(CalcMicrocode.CalcLine(start, stack, i))
    {
    }
    hide CalcMicrocode.CalcLine, Plain;
  }

  /** Every jump goes to a line that defines its label. */
  lemma FortJumps(start: Word, i: nat)
    requires i < 190
    ensures var l := FortMicrocode.FortLine(start, i);
      l.GoTo? || l.CallTo? || l.IfGoTo? ==> l.target < 190 && FortMicrocode.FortLine(start, l.target) == Label(l.target)
    ensures !FortMicrocode.FortLine(start, i).Begin? && !FortMicrocode.FortLine(start, i).IfThen?
  {
  }

  lemma CalcJumps(start: Word, stack: Word, i: nat)
    requires i < 108
    ensures var l := CalcMicrocode.CalcLine(start, stack, i);
      l.GoTo? || l.CallTo? || l.IfGoTo?
      ==> l.target < 108 && CalcMicrocode.CalcLine(start, stack, l.target) == Label(l.target)
    ensures !CalcMicrocode.CalcLine(start, stack, i).Begin? && !CalcMicrocode.CalcLine(start, stack, i).IfThen?
  {
  }

  /** The assembler accepts the S-FORT interpreter, so its words are the ones the refinement is about. */
  lemma FortAccepted(start: Word)
    ensures MilAssembler.Accepted(FortMicrocode.FortSource(start))
  {
    hide FortMicrocode.FortLine, Target, Code, Plain;
    var p := FortMicrocode.FortSource(start);
    FortMicrocode.ProgramFits(start);
    FortPlain(start);
    forall i | 0 <= i < 190
      ensures p[i].Label? ==> Target(p, p[i].name) == i
      ensures p[i].GoTo? || p[i].CallTo? || p[i].IfGoTo? ==> Target(p, p[i].target) < 190
      ensures !p[i].Begin? && !p[i].IfThen? && Plain(p[i])
    {
      FortJumps(start, i);
      FortMicrocode.Labels(start, i);
      if p[i].Label? {
        FortMicrocode.JumpFinds(start, i);
      }
      if p[i].GoTo? || p[i].CallTo? || p[i].IfGoTo? {
        FortMicrocode.JumpFinds(start, p[i].target);
      }
    }
    PlainConds(p);
  }

  lemma CalcAccepted(start: Word, stack: Word)
    ensures MilAssembler.Accepted(CalcMicrocode.CalcSource(start, stack))
  {
    hide CalcMicrocode.CalcLine, Target, Code, Plain;
    var p := CalcMicrocode.CalcSource(start, stack);
    CalcMicrocode.ProgramFits(start, stack);
    CalcPlain(start, stack);
    forall i | 0 <= i < 108
      ensures p[i].Label? ==> Target(p, p[i].name) == i
      ensures p[i].GoTo? || p[i].CallTo? || p[i].IfGoTo? ==> Target(p, p[i].target) < 108
      ensures !p[i].Begin? && !p[i].IfThen? && Plain(p[i])
    {
      CalcJumps(start, stack, i);
      CalcMicrocode.Labels(start, stack, i);
      if p[i].Label? {
        CalcMicrocode.JumpFinds(start, stack, i);
      }
      if p[i].GoTo? || p[i].CallTo? || p[i].IfGoTo? {
        CalcMicrocode.JumpFinds(start, stack, p[i].target);
      }
    }
    PlainConds(p);
  }

  lemma PlainConds(p: Program)
    requires AllPlain(p)
    ensures MilAssembler.CondsFine(p)
  {
    hide Parses;
    forall i | 0 <= i < |p|
      ensures p[i].IfGoTo? || p[i].IfThen? ==> Parses(p[i].cond)
      ensures p[i].SkipWhen? ==> !p[i].cond.test.TBit?
    {
      assert Plain(p[i]);
    }
  }
}
