/** The micro-instruction set: what each 16-bit word means (the field accessors and the
    decode tree) and how the cross-assembler packs each operator into a word. */
module Isa {
  import opened Bits

  /** One decoded micro-operator. Undefined words decode to Nop. */
  datatype Op =
    | Nop
    | Overlay
    | Halt
    | Normalize
    | Monitor
    | Dispatch(variant: nat)
    | Bias(variant: nat, test: bool)
    | ShiftXY(isY: bool, right: bool, rot: bool, count: nat)
    | ShiftConcat(right: bool)
    | CarryFF(v: nat)
    | Count(cv: nat, amount: nat)
    | Exchange(src: nat, dst: nat)
    | Relate(pad: nat, neg: bool)
    | Move(sg: nat, ss: nat, dg: nat, ds: nat)
    | PadMove(pad: nat, right: bool, from: bool, rs: nat, rg: nat)
    | Nibble(g: nat, s: nat, fn: nat, lit: nat)
    | BitBranch(g: nat, s: nat, bit: nat, neg: bool, disp: nat, onTrue: bool)
    | Skip(g: nat, s: nat, fn: nat, mask: nat)
    | Field(write: bool, reg: nat, rev: bool, len: nat, cv: nat)
    | Lit8(g: nat, v: nat)
    | Lit24(g: nat, hi: nat)
    | ShiftT(dg: nat, ds: nat, rot: bool, count: nat)
    | Extract(rotate: nat, dst: nat, width: nat)
    | Branch(neg: bool, disp: nat)
    | Call(neg: bool, disp: nat)

  function MC(w: nat): nat { w / 0x1000 % 16 }
  function MD(w: nat): nat { w / 0x100 % 16 }
  function ME(w: nat): nat { w / 0x10 % 16 }
  function MF(w: nat): nat { w % 16 }

  /** The decode tree, on the four nibbles MC, MD, ME, MF of the word. */
  function Decode(w: nat): Op {
    DecodeNibbles(MC(w), MD(w), ME(w), MF(w))
  }

  function DecodeNibbles(c: nat, d: nat, e: nat, f: nat): Op {
    match c
    case 0 => DecodeSecondary(d, e, f)
    case 1 => Move(f, e % 4, d, e / 4)
    case 2 => PadMove(d, e / 8 == 1, e / 4 % 2 == 1, e % 4, f)
    case 3 => Nibble(d, e / 8, e % 8, f)
    case 4 => BitBranch(d, e / 8, e / 2 % 4, e % 2 == 1, f, false)
    case 5 => BitBranch(d, e / 8, e / 2 % 4, e % 2 == 1, f, true)
    case 6 => Skip(d, e / 8, e % 8, f)
    case 7 => Field(d / 8 == 1, d / 2 % 4, d % 2 == 1, e * 2 + f / 8, f % 8)
    case 8 => Lit8(d, e * 16 + f)
    case 9 => Lit24(d, e * 16 + f)
    case 10 => ShiftT(d, e / 4, e / 2 % 2 == 1, e % 2 * 16 + f)
    case 11 => Extract(d * 2 + e / 8, e / 2 % 4, e % 2 * 16 + f)
    case 12 => Branch(false, d * 256 + e * 16 + f)
    case 13 => Branch(true, d * 256 + e * 16 + f)
    case 14 => Call(false, d * 256 + e * 16 + f)
    case _ => Call(true, d * 256 + e * 16 + f)
  }

  function DecodeSecondary(d: nat, e: nat, f: nat): Op {
    if d == 0 && e == 0 then
      if f == 1 then Overlay
      else if f == 2 then Halt
      else if f == 3 then Normalize
      else Nop
    else if d == 0 then
      if e == 1 then Dispatch(e)
      else if e == 3 then Bias(f % 8, false)
      else Nop
    else
      match d
      case 1 => Dispatch(e)
      case 3 => Bias(f % 8, e / 8 == 1)
      case 4 => ShiftXY(e / 8 == 1, e / 4 % 2 == 1, e / 2 % 2 == 1, e % 2 * 16 + f)
      case 5 => ShiftConcat(e / 8 == 1)
      case 6 => if e == 0 then CarryFF(f) else Count(e / 2, e % 2 * 16 + f)
      case 7 => Exchange(e, f)
      case 8 => Relate(e, f / 8 == 1)
      case 9 => Monitor
      case _ => Nop
  }

  function Pack(c: nat, d: nat, e: nat, f: nat): nat {
    c * 0x1000 + d * 0x100 + e * 0x10 + f
  }

  lemma Unpack(c: nat, d: nat, e: nat, f: nat)
    requires c < 16 && d < 16 && e < 16 && f < 16
    ensures var w := Pack(c, d, e, f); w < 0x1_0000 && MC(w) == c && MD(w) == d && ME(w) == e && MF(w) == f
  {
    DivMod(c, d * 0x100 + e * 0x10 + f, 0x1000);
    DivMod(c * 16 + d, e * 0x10 + f, 0x100);
    DivMod(c, d, 16);
    DivMod(c * 256 + d * 16 + e, f, 16);
    DivMod(c * 16 + d, e, 16);
  }

  /** The operand ranges in which the assembler's encoders pack without overlap. Select fields of
      the 3C, 4C/5C and 6C operators hold one bit, so nibble operands have select 0 or 1. */
  predicate Packable(op: Op) {
    match op
    case Dispatch(v) => v < 16
    case Bias(v, _) => v < 8
    case ShiftXY(_, _, _, c) => c < 32
    case CarryFF(v) => v < 16
    case Count(cv, n) => cv < 8 && n < 32 && (cv > 0 || n >= 16)
    case Exchange(a, b) => a < 16 && b < 16
    case Relate(p, _) => p < 16
    case Move(sg, ss, dg, ds) => sg < 16 && ss < 4 && dg < 16 && ds < 4
    case PadMove(p, _, _, rs, rg) => p < 16 && rs < 4 && rg < 16
    case Nibble(g, s, f, l) => g < 16 && s < 2 && f < 8 && l < 16
    case BitBranch(g, s, b, _, d, _) => g < 16 && s < 2 && b < 4 && d < 16
    case Skip(g, s, f, m) => g < 16 && s < 2 && f < 8 && m < 16
    case Field(_, r, _, n, cv) => r < 4 && n < 32 && cv < 8
    case Lit8(g, v) => g < 16 && v < 256
    case Lit24(g, h) => g < 16 && h < 256
    case ShiftT(dg, ds, _, c) => dg < 16 && ds < 4 && c < 32
    case Extract(r, d, w) => r < 32 && d < 4 && w < 32
    case Branch(_, d) => d < 0x1000
    case Call(_, d) => d < 0x1000
    case _ => true
  }

  /** The assembler's encoders. The bitwise-or of disjoint fields is written as a sum. */
  function Encode(op: Op): nat {
    match op
    case Nop => 0
    case Overlay => 1
    case Halt => 2
    case Normalize => 3
    case Monitor => 0x900
    case Dispatch(v) => 0x100 + v * 16
    case Bias(v, test) => 0x300 + B(test) * 128 + v
    case ShiftXY(y, r, rot, c) => 0x400 + B(y) * 128 + B(r) * 64 + B(rot) * 32 + c
    case ShiftConcat(r) => 0x500 + B(r) * 128
    case CarryFF(v) => 0x600 + v
    case Count(cv, n) => 0x600 + cv * 32 + n
    case Exchange(a, b) => 0x700 + a * 16 + b
    case Relate(p, neg) => 0x800 + p * 16 + B(neg) * 8
    case Move(sg, ss, dg, ds) => 0x1000 + dg * 256 + ds * 64 + ss * 16 + sg
    case PadMove(p, right, from, rs, rg) => 0x2000 + p * 256 + B(right) * 128 + B(from) * 64 + rs * 16 + rg
    case Nibble(g, s, f, l) => 0x3000 + g * 256 + s * 128 + f * 16 + l
    case BitBranch(g, s, b, neg, d, t) => 0x4000 + B(t) * 0x1000 + g * 256 + s * 128 + b * 32 + B(neg) * 16 + d
    case Skip(g, s, f, m) => 0x6000 + g * 256 + s * 128 + f * 16 + m
    case Field(w, r, rev, n, cv) => 0x7000 + B(w) * 0x800 + r * 0x200 + B(rev) * 0x100 + n * 8 + cv
    case Lit8(g, v) => 0x8000 + g * 256 + v
    case Lit24(g, h) => 0x9000 + g * 256 + h
    case ShiftT(dg, ds, rot, c) => 0xA000 + dg * 256 + ds * 64 + B(rot) * 32 + c
    case Extract(r, d, w) => 0xB000 + r * 128 + d * 32 + w
    case Branch(neg, d) => 0xC000 + B(neg) * 0x1000 + d
    case Call(neg, d) => 0xE000 + B(neg) * 0x1000 + d
  }

  lemma Repack(op: Op, c: nat, d: nat, e: nat, f: nat)
    requires c < 16 && d < 16 && e < 16 && f < 16
    requires Encode(op) == Pack(c, d, e, f) && DecodeNibbles(c, d, e, f) == op
    ensures Encode(op) < 0x1_0000 && Decode(Encode(op)) == op
  {
    Unpack(c, d, e, f);
  }

  /** Every encoder is undone by the field accessors and picked out by the decode tree. */
  lemma DecodeEncode(op: Op)
    requires Packable(op)
    ensures Encode(op) < 0x1_0000 && Decode(Encode(op)) == op
  {
    hide *;
    match op
    case Branch(_, _) => JumpRoundTrip(op);
    case Call(_, _) => JumpRoundTrip(op);
    case Lit8(_, _) => LiteralRoundTrip(op);
    case Lit24(_, _) => LiteralRoundTrip(op);
    case Move(_, _, _, _) => MoveRoundTrip(op);
    case PadMove(_, _, _, _, _) => MoveRoundTrip(op);
    case Nibble(_, _, _, _) => TestRoundTrip(op);
    case Skip(_, _, _, _) => TestRoundTrip(op);
    case Field(_, _, _, _, _) => FieldRoundTrip(op);
    case BitBranch(_, _, _, _, _, _) => BitBranchRoundTrip(op);
    case ShiftT(_, _, _, _) => ShiftTRoundTrip(op);
    case Extract(_, _, _) => ExtractRoundTrip(op);
    case ShiftXY(_, _, _, _) => ShiftXYRoundTrip(op);
    case CarryFF(_) => CountRoundTrip(op);
    case Count(_, _) => CountRoundTrip(op);
    case Exchange(_, _) => PadRoundTrip(op);
    case Relate(_, _) => PadRoundTrip(op);
    case ShiftConcat(_) => PadRoundTrip(op);
    case Bias(_, _) => ControlRoundTrip(op);
    case Dispatch(_) => ControlRoundTrip(op);
    case Monitor => FixedRoundTrip(op);
    case Nop => FixedRoundTrip(op);
    case Overlay => FixedRoundTrip(op);
    case Halt => FixedRoundTrip(op);
    case Normalize => FixedRoundTrip(op);
  }

  lemma JumpRoundTrip(op: Op)
    requires Packable(op) && (op.Branch? || op.Call?)
    ensures Encode(op) < 0x1_0000 && Decode(Encode(op)) == op
  {
    var c := B(op.neg) + (if op.Branch? then 12 else 14);
    var (d, e, f) := (op.disp / 256, op.disp / 16 % 16, op.disp % 16);
    HexDigits(op.disp);
    assert Encode(op) == Pack(c, d, e, f);
    Repack(op, c, d, e, f);
  }

  lemma HexDigits(n: nat)
    requires n < 0x1000
    ensures n / 256 < 16 && n == n / 256 * 256 + n / 16 % 16 * 16 + n % 16
  {
  }

  lemma LiteralRoundTrip(op: Op)
    requires Packable(op) && (op.Lit8? || op.Lit24?)
    ensures Encode(op) < 0x1_0000 && Decode(Encode(op)) == op
  {
    match op
    case Lit8(g, v) => Repack(op, 8, g, v / 16, v % 16);
    case Lit24(g, v) => Repack(op, 9, g, v / 16, v % 16);
  }

  lemma MoveRoundTrip(op: Op)
    requires Packable(op) && (op.Move? || op.PadMove?)
    ensures Encode(op) < 0x1_0000 && Decode(Encode(op)) == op
  {
    match op
    case Move(sg, ss, dg, ds) => Repack(op, 1, dg, ds * 4 + ss, sg);
    case PadMove(p, right, from, rs, rg) => Repack(op, 2, p, B(right) * 8 + B(from) * 4 + rs, rg);
  }

  lemma TestRoundTrip(op: Op)
    requires Packable(op) && (op.Nibble? || op.Skip?)
    ensures Encode(op) < 0x1_0000 && Decode(Encode(op)) == op
  {
    match op
    case Nibble(g, s, f, l) => Repack(op, 3, g, s * 8 + f, l);
    case Skip(g, s, f, m) => Repack(op, 6, g, s * 8 + f, m);
  }

  lemma FieldRoundTrip(op: Op)
    requires Packable(op) && op.Field?
    ensures Encode(op) < 0x1_0000 && Decode(Encode(op)) == op
  {
    var Field(w, r, rev, n, cv) := op;
    FieldNibbles(w, r, rev, n, cv);
    assert n * 8 == n / 2 * 16 + n % 2 * 8;
    Repack(op, 7, B(w) * 8 + r * 2 + B(rev), n / 2, n % 2 * 8 + cv);
  }

  lemma FieldNibbles(w: bool, r: nat, rev: bool, n: nat, cv: nat)
    requires Packable(Field(w, r, rev, n, cv))
    ensures DecodeNibbles(7, B(w) * 8 + r * 2 + B(rev), n / 2, n % 2 * 8 + cv) == Field(w, r, rev, n, cv)
  {
  }

  lemma BitBranchRoundTrip(op: Op)
    requires Packable(op) && op.BitBranch?
    ensures Encode(op) < 0x1_0000 && Decode(Encode(op)) == op
  {
    var BitBranch(g, s, b, neg, d, t) := op;
    BitBranchNibbles(g, s, b, neg, d, t);
    Repack(op, 4 + B(t), g, s * 8 + b * 2 + B(neg), d);
  }

  lemma BitBranchNibbles(g: nat, s: nat, b: nat, neg: bool, d: nat, t: bool)
    requires Packable(BitBranch(g, s, b, neg, d, t))
    ensures DecodeNibbles(4 + B(t), g, s * 8 + b * 2 + B(neg), d) == BitBranch(g, s, b, neg, d, t)
  {
  }

  lemma ShiftTRoundTrip(op: Op)
    requires Packable(op) && op.ShiftT?
    ensures Encode(op) < 0x1_0000 && Decode(Encode(op)) == op
  {
    var ShiftT(dg, ds, rot, c) := op;
    ShiftTNibbles(dg, ds, rot, c);
    assert 32 * B(rot) + c == (B(rot) * 2 + c / 16) * 16 + c % 16;
    Repack(op, 10, dg, ds * 4 + B(rot) * 2 + c / 16, c % 16);
  }

  lemma ShiftTNibbles(dg: nat, ds: nat, rot: bool, c: nat)
    requires Packable(ShiftT(dg, ds, rot, c))
    ensures DecodeNibbles(10, dg, ds * 4 + B(rot) * 2 + c / 16, c % 16) == ShiftT(dg, ds, rot, c)
  {
  }

  lemma ExtractRoundTrip(op: Op)
    requires Packable(op) && op.Extract?
    ensures Encode(op) < 0x1_0000 && Decode(Encode(op)) == op
  {
    var Extract(r, d, w) := op;
    ExtractNibbles(r, d, w);
    assert r * 128 == r / 2 * 256 + r % 2 * 128;
    assert d * 32 + w == (d * 2 + w / 16) * 16 + w % 16;
    Repack(op, 11, r / 2, r % 2 * 8 + d * 2 + w / 16, w % 16);
  }

  lemma ExtractNibbles(r: nat, d: nat, w: nat)
    requires Packable(Extract(r, d, w))
    ensures DecodeNibbles(11, r / 2, r % 2 * 8 + d * 2 + w / 16, w % 16) == Extract(r, d, w)
  {
  }

  lemma ShiftXYRoundTrip(op: Op)
    requires Packable(op) && op.ShiftXY?
    ensures Encode(op) < 0x1_0000 && Decode(Encode(op)) == op
  {
    var ShiftXY(y, r, rot, c) := op;
    ShiftXYNibbles(y, r, rot, c);
    assert 32 * B(rot) + c == (B(rot) * 2 + c / 16) * 16 + c % 16;
    Repack(op, 0, 4, B(y) * 8 + B(r) * 4 + B(rot) * 2 + c / 16, c % 16);
  }

  lemma ShiftXYNibbles(y: bool, r: bool, rot: bool, c: nat)
    requires c < 32
    ensures DecodeNibbles(0, 4, B(y) * 8 + B(r) * 4 + B(rot) * 2 + c / 16, c % 16) == ShiftXY(y, r, rot, c)
  {
  }

  lemma CountRoundTrip(op: Op)
    requires Packable(op) && (op.CarryFF? || op.Count?)
    ensures Encode(op) < 0x1_0000 && Decode(Encode(op)) == op
  {
    match op
    case CarryFF(v) => Repack(op, 0, 6, 0, v);
    case Count(cv, n) => Repack(op, 0, 6, cv * 2 + n / 16, n % 16);
  }

  lemma PadRoundTrip(op: Op)
    requires Packable(op) && (op.Exchange? || op.Relate? || op.ShiftConcat?)
    ensures Encode(op) < 0x1_0000 && Decode(Encode(op)) == op
  {
    match op
    case Exchange(a, b) => Repack(op, 0, 7, a, b);
    case Relate(p, neg) => Repack(op, 0, 8, p, B(neg) * 8);
    case ShiftConcat(r) => Repack(op, 0, 5, B(r) * 8, 0);
  }

  lemma ControlRoundTrip(op: Op)
    requires Packable(op) && (op.Bias? || op.Dispatch?)
    ensures Encode(op) < 0x1_0000 && Decode(Encode(op)) == op
  {
    match op
    case Bias(v, test) => Repack(op, 0, 3, B(test) * 8, v);
    case Dispatch(v) => Repack(op, 0, 1, v, 0);
  }

  lemma FixedRoundTrip(op: Op)
    requires op.Monitor? || op.Nop? || op.Overlay? || op.Halt? || op.Normalize?
    ensures Encode(op) < 0x1_0000 && Decode(Encode(op)) == op
  {
    if op.Monitor? {
      Repack(op, 0, 9, 0, 0);
    } else {
      EarlyRoundTrip(op);
    }
  }

  lemma EarlyRoundTrip(op: Op)
    requires op.Nop? || op.Overlay? || op.Halt? || op.Normalize?
    ensures Encode(op) < 0x1_0000 && Decode(Encode(op)) == op
  {
    var w := Encode(op);
    assert w < 4;
    assert MC(w) == 0 && MD(w) == 0 && ME(w) == 0 && MF(w) == w;
  }
}
