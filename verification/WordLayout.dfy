/** Where the fields of each operator stand in its word, counted in bits from the least significant end. */
module WordLayout {
  import opened Bits
  import opened Isa

  /** Bits of w from place p up, p and the number of bits given by their powers of two. */
  function At(w: nat, place: nat, size: nat): nat
    requires place > 0 && size > 0
  {
    w / place % size
  }

  predicate Flag(w: nat, place: nat)
    requires place > 0
  {
    At(w, place, 2) == 1
  }

  /** The fields of op stand at their places in w. */
  predicate Placed(op: Op, w: nat) {
    match op
    case Nop => w == 0
    case Overlay => w == 1
    case Halt => w == 2
    case Normalize => w == 3
    case Dispatch(v) => w / 0x100 == 1 && At(w, 0x10, 16) == v
    case Bias(v, test) => w / 0x100 == 3 && Flag(w, 0x80) == test && At(w, 1, 8) == v
    case ShiftXY(isY, right, rot, n) =>
      w / 0x100 == 4 && Flag(w, 0x80) == isY && Flag(w, 0x40) == right && Flag(w, 0x20) == rot && At(w, 1, 32) == n
    case ShiftConcat(right) => w / 0x100 == 5 && Flag(w, 0x80) == right
    case CarryFF(v) => w / 0x10 == 0x60 && At(w, 1, 16) == v
    case Count(cv, n) => w / 0x100 == 6 && At(w, 0x20, 8) == cv && At(w, 1, 32) == n
    case Exchange(src, dst) => w / 0x100 == 7 && At(w, 0x10, 16) == src && At(w, 1, 16) == dst
    case Relate(p, neg) => w / 0x100 == 8 && At(w, 0x10, 16) == p && Flag(w, 8) == neg
    case Monitor => w / 0x100 == 9
    case Move(sg, ss, dg, ds) =>
      w / 0x1000 == 1 && At(w, 0x100, 16) == dg && At(w, 0x40, 4) == ds && At(w, 0x10, 4) == ss && At(w, 1, 16) == sg
    case PadMove(p, right, from, rs, rg) =>
      && w / 0x1000 == 2 && At(w, 0x100, 16) == p && Flag(w, 0x80) == right && Flag(w, 0x40) == from
      && At(w, 0x10, 4) == rs && At(w, 1, 16) == rg
    case Nibble(g, s, fn, lit) =>
      w / 0x1000 == 3 && At(w, 0x100, 16) == g && At(w, 0x80, 2) == s && At(w, 0x10, 8) == fn && At(w, 1, 16) == lit
    case BitBranch(g, s, bit, neg, d, onTrue) =>
      && w / 0x1000 == (if onTrue then 5 else 4) && At(w, 0x100, 16) == g && At(w, 0x80, 2) == s
      && At(w, 0x20, 4) == bit && Flag(w, 0x10) == neg && At(w, 1, 16) == d
    case Skip(g, s, fn, mask) =>
      w / 0x1000 == 6 && At(w, 0x100, 16) == g && At(w, 0x80, 2) == s && At(w, 0x10, 8) == fn && At(w, 1, 16) == mask
    case Field(write, reg, rev, n, cv) =>
      && w / 0x1000 == 7 && Flag(w, 0x800) == write && At(w, 0x200, 4) == reg && Flag(w, 0x100) == rev
      && At(w, 8, 32) == n && At(w, 1, 8) == cv
    case Lit8(g, v) => w / 0x1000 == 8 && At(w, 0x100, 16) == g && At(w, 1, 256) == v
    case Lit24(g, hi) => w / 0x1000 == 9 && At(w, 0x100, 16) == g && At(w, 1, 256) == hi
    case ShiftT(dg, ds, rot, n) =>
      w / 0x1000 == 10 && At(w, 0x100, 16) == dg && At(w, 0x40, 4) == ds && Flag(w, 0x20) == rot && At(w, 1, 32) == n
    case Extract(rot, dst, n) => w / 0x1000 == 11 && At(w, 0x80, 32) == rot && At(w, 0x20, 4) == dst && At(w, 1, 32) == n
    case Branch(neg, d) => w / 0x1000 == (if neg then 13 else 12) && At(w, 1, 0x1000) == d
    case Call(neg, d) => w / 0x1000 == (if neg then 15 else 14) && At(w, 1, 0x1000) == d
  }

  /** The last digit d, of size n. */
  lemma Digit(top: nat, d: nat, n: nat, w: nat)
    requires d < n && w == top * n + d
    ensures w % n == d && w / n == top
  {
    DivMod(top, d, n);
  }

  /** A number w written with digits of mixed sizes gives each of them back, one division after the other ... */
  lemma Peeled(w: nat, a: nat, b: nat, sb: nat, c: nat, sc: nat, d: nat, sd: nat, e: nat, se: nat, f: nat, sf: nat)
    requires b < sb && c < sc && d < sd && e < se && f < sf
    requires w == ((((a * sb + b) * sc + c) * sd + d) * se + e) * sf + f
    ensures w % sf == f && w / sf % se == e && w / sf / se % sd == d && w / sf / se / sd % sc == c
    ensures w / sf / se / sd / sc % sb == b && w / sf / se / sd / sc / sb == a
  {
    var w1 := a * sb + b;
    var w2 := w1 * sc + c;
    var w3 := w2 * sd + d;
    var w4 := w3 * se + e;
    Digit(w4, f, sf, w);
    Digit(w3, e, se, w4);
    Digit(w2, d, sd, w3);
    Digit(w1, c, sc, w2);
    Digit(a, b, sb, w1);
  }

  /** ... or by the place of each. */
  lemma Digits(w: nat, a: nat, b: nat, sb: nat, c: nat, sc: nat, d: nat, sd: nat, e: nat, se: nat, f: nat, sf: nat)
    requires b < sb && c < sc && d < sd && e < se && f < sf
    requires w == ((((a * sb + b) * sc + c) * sd + d) * se + e) * sf + f
    ensures w % sf == f && w / sf % se == e
    ensures se * sf > 0 && w / (se * sf) % sd == d
    ensures sd * (se * sf) > 0 && w / (sd * (se * sf)) % sc == c
    ensures sc * (sd * (se * sf)) > 0 && w / (sc * (sd * (se * sf))) % sb == b
    ensures sb * (sc * (sd * (se * sf))) > 0 && w / (sb * (sc * (sd * (se * sf)))) == a
  {
    Peeled(w, a, b, sb, c, sc, d, sd, e, se, f, sf);
    Places(w, sb, sc, sd, se, sf);
  }

  lemma Places(w: nat, sb: nat, sc: nat, sd: nat, se: nat, sf: nat)
    requires sb > 0 && sc > 0 && sd > 0 && se > 0 && sf > 0
    ensures se * sf > 0 && w / (se * sf) == w / sf / se
    ensures sd * (se * sf) > 0 && w / (sd * (se * sf)) == w / sf / se / sd
    ensures sc * (sd * (se * sf)) > 0 && w / (sc * (sd * (se * sf))) == w / sf / se / sd / sc
    ensures sb * (sc * (sd * (se * sf))) > 0 && w / (sb * (sc * (sd * (se * sf)))) == w / sf / se / sd / sc / sb
  {
    DivDiv(w, sf, se);
    DivDiv(w, se * sf, sd);
    DivDiv(w, sd * (se * sf), sc);
    DivDiv(w, sc * (sd * (se * sf)), sb);
  }

  lemma Flagged(b: bool)
    ensures B(b) < 2 && (B(b) == 1) == b
  {
  }

  lemma PadMovePlaced(op: Op)
    requires Packable(op) && op.PadMove?
    ensures Placed(op, Encode(op))
  {
    var PadMove(p, right, from, rs, rg) := op;
    Flagged(right);
    Flagged(from);
    hide B;
    Digits(Encode(op), 2, p, 16, B(right), 2, B(from), 2, rs, 4, rg, 16);
  }

  lemma BitBranchPlaced(op: Op)
    requires Packable(op) && op.BitBranch?
    ensures Placed(op, Encode(op))
  {
    var BitBranch(g, s, bit, neg, d, onTrue) := op;
    Flagged(neg);
    hide B;
    Digits(Encode(op), if onTrue then 5 else 4, g, 16, s, 2, bit, 4, B(neg), 2, d, 16);
  }

  lemma FieldPlaced(op: Op)
    requires Packable(op) && op.Field?
    ensures Placed(op, Encode(op))
  {
    var Field(write, reg, rev, n, cv) := op;
    Flagged(write);
    Flagged(rev);
    hide B;
    Digits(Encode(op), 7, B(write), 2, reg, 4, B(rev), 2, n, 32, cv, 8);
  }

  lemma MovePlaced(op: Op)
    requires Packable(op) && op.Move?
    ensures Placed(op, Encode(op))
  {
    var Move(sg, ss, dg, ds) := op;
    hide B;
    Digits(Encode(op), 1, 0, 1, dg, 16, ds, 4, ss, 4, sg, 16);
  }

  lemma NibblePlaced(op: Op)
    requires Packable(op) && op.Nibble?
    ensures Placed(op, Encode(op))
  {
    var Nibble(g, s, fn, lit) := op;
    hide B;
    Digits(Encode(op), 3, 0, 1, g, 16, s, 2, fn, 8, lit, 16);
  }

  lemma SkipPlaced(op: Op)
    requires Packable(op) && op.Skip?
    ensures Placed(op, Encode(op))
  {
    var Skip(g, s, fn, mask) := op;
    hide B;
    Digits(Encode(op), 6, 0, 1, g, 16, s, 2, fn, 8, mask, 16);
  }

  lemma ShiftTPlaced(op: Op)
    requires Packable(op) && op.ShiftT?
    ensures Placed(op, Encode(op))
  {
    var ShiftT(dg, ds, rot, n) := op;
    Flagged(rot);
    hide B;
    Digits(Encode(op), 10, 0, 1, dg, 16, ds, 4, B(rot), 2, n, 32);
  }

  lemma ExtractPlaced(op: Op)
    requires Packable(op) && op.Extract?
    ensures Placed(op, Encode(op))
  {
    var Extract(rot, dst, n) := op;
    hide B;
    Digits(Encode(op), 11, 0, 1, 0, 1, rot, 32, dst, 4, n, 32);
  }

  lemma ShiftXYPlaced(op: Op)
    requires Packable(op) && op.ShiftXY?
    ensures Placed(op, Encode(op))
  {
    var ShiftXY(isY, right, rot, n) := op;
    Flagged(isY);
    Flagged(right);
    Flagged(rot);
    hide B;
    Digits(Encode(op), 4, 0, 1, B(isY), 2, B(right), 2, B(rot), 2, n, 32);
  }

  lemma LiteralPlaced(op: Op)
    requires Packable(op) && (op.Lit8? || op.Lit24? || op.Branch? || op.Call?)
    ensures Placed(op, Encode(op))
  {
    match op
    case Lit8(g, v) => Digits(Encode(op), 8, 0, 1, 0, 1, 0, 1, g, 16, v, 256);
    case Lit24(g, v) => Digits(Encode(op), 9, 0, 1, 0, 1, 0, 1, g, 16, v, 256);
    case Branch(neg, d) => Digits(Encode(op), if neg then 13 else 12, 0, 1, 0, 1, 0, 1, 0, 1, d, 0x1000);
    case Call(neg, d) => Digits(Encode(op), if neg then 15 else 14, 0, 1, 0, 1, 0, 1, 0, 1, d, 0x1000);
  }

  lemma SmallPlaced(op: Op)
    requires Packable(op) && (op.Dispatch? || op.ShiftConcat? || op.CarryFF? || op.Count?)
    ensures Placed(op, Encode(op))
  {
    match op
    case Dispatch(v) => Digits(Encode(op), 1, 0, 1, 0, 1, 0, 1, v, 16, 0, 16);
    case ShiftConcat(right) => Digits(Encode(op), 5, 0, 1, 0, 1, 0, 1, B(right), 2, 0, 128);
    case CarryFF(v) => Digits(Encode(op), 0x60, 0, 1, 0, 1, 0, 1, 0, 1, v, 16);
    case Count(cv, n) => Digits(Encode(op), 6, 0, 1, 0, 1, 0, 1, cv, 8, n, 32);
  }

  lemma OtherPlaced(op: Op)
    requires Packable(op)
    requires op.Bias? || op.Exchange? || op.Relate? || op.Monitor? || op.Nop? || op.Overlay? || op.Halt? || op.Normalize?
    ensures Placed(op, Encode(op))
  {
    match op
    case Bias(v, test) => Digits(Encode(op), 3, 0, 1, 0, 1, B(test), 2, 0, 16, v, 8);
    case Exchange(src, dst) => Digits(Encode(op), 7, 0, 1, 0, 1, 0, 1, src, 16, dst, 16);
    case Relate(p, neg) => Digits(Encode(op), 8, 0, 1, 0, 1, p, 16, B(neg), 2, 0, 8);
    case _ =>
  }

  /** Every operator the assembler packs has its fields at their places. */
  lemma FieldsPlaced(op: Op)
    requires Packable(op)
    ensures Placed(op, Encode(op))
  {
    hide *;
    match op
    case PadMove(_, _, _, _, _) => PadMovePlaced(op);
    case BitBranch(_, _, _, _, _, _) => BitBranchPlaced(op);
    case Field(_, _, _, _, _) => FieldPlaced(op);
    case Move(_, _, _, _) => MovePlaced(op);
    case Nibble(_, _, _, _) => NibblePlaced(op);
    case Skip(_, _, _, _) => SkipPlaced(op);
    case ShiftT(_, _, _, _) => ShiftTPlaced(op);
    case Extract(_, _, _) => ExtractPlaced(op);
    case ShiftXY(_, _, _, _) => ShiftXYPlaced(op);
    case Lit8(_, _) => LiteralPlaced(op);
    case Lit24(_, _) => LiteralPlaced(op);
    case Branch(_, _) => LiteralPlaced(op);
    case Call(_, _) => LiteralPlaced(op);
    case Dispatch(_) => SmallPlaced(op);
    case ShiftConcat(_) => SmallPlaced(op);
    case CarryFF(_) => SmallPlaced(op);
    case Count(_, _) => SmallPlaced(op);
    case _ => OtherPlaced(op);
  }

  // ----- every word -----

  lemma Nibbles(w: nat)
    requires w < 0x1_0000
    ensures MC(w) < 16 && MD(w) < 16 && ME(w) < 16 && MF(w) < 16 && w == Pack(MC(w), MD(w), ME(w), MF(w))
    ensures MC(w) == w / 0x1000
  {
    assert w / 0x10 / 0x10 == w / 0x100 && w / 0x100 / 0x10 == w / 0x1000;
  }

  /** The binary digits of a nibble, and what divisions and remainders make of them. */
  lemma Binary(v: nat) returns (p: nat, q: nat, r: nat, t: nat)
    requires v < 16
    ensures p < 2 && q < 2 && r < 2 && t < 2 && v == 8 * p + 4 * q + 2 * r + t
    ensures v / 8 == p && v / 4 == 2 * p + q && v / 2 == 4 * p + 2 * q + r && v % 2 == t && v % 4 == 2 * r + t
    ensures v % 8 == 4 * q + 2 * r + t && v / 4 % 2 == q && v / 2 % 2 == r && v / 2 % 4 == 2 * q + r
    ensures B(v / 8 == 1) == p && B(v / 4 % 2 == 1) == q && B(v / 2 % 2 == 1) == r && B(v % 2 == 1) == t
  {
    p, q, r, t := v / 8, v / 4 % 2, v / 2 % 2, v % 2;
  }

  lemma Packs1(d: nat, e: nat, f: nat)
    requires d < 16 && e < 16 && f < 16
    ensures var op := DecodeNibbles(1, d, e, f); Packable(op) && Encode(op) == Pack(1, d, e, f)
  {
    var e3, e2, e1, e0 := Binary(e);
    hide B;
  }

  lemma Packs2(d: nat, e: nat, f: nat)
    requires d < 16 && e < 16 && f < 16
    ensures var op := DecodeNibbles(2, d, e, f); Packable(op) && Encode(op) == Pack(2, d, e, f)
  {
    var e3, e2, e1, e0 := Binary(e);
    hide B;
  }

  lemma Packs3(d: nat, e: nat, f: nat)
    requires d < 16 && e < 16 && f < 16
    ensures var op := DecodeNibbles(3, d, e, f); Packable(op) && Encode(op) == Pack(3, d, e, f)
  {
    var e3, e2, e1, e0 := Binary(e);
    hide B;
  }

  lemma Packs4(d: nat, e: nat, f: nat)
    requires d < 16 && e < 16 && f < 16
    ensures var op := DecodeNibbles(4, d, e, f); Packable(op) && Encode(op) == Pack(4, d, e, f)
  {
    var e3, e2, e1, e0 := Binary(e);
    hide B;
  }

  lemma Packs5(d: nat, e: nat, f: nat)
    requires d < 16 && e < 16 && f < 16
    ensures var op := DecodeNibbles(5, d, e, f); Packable(op) && Encode(op) == Pack(5, d, e, f)
  {
    var e3, e2, e1, e0 := Binary(e);
    hide B;
  }

  lemma Packs6(d: nat, e: nat, f: nat)
    requires d < 16 && e < 16 && f < 16
    ensures var op := DecodeNibbles(6, d, e, f); Packable(op) && Encode(op) == Pack(6, d, e, f)
  {
    var e3, e2, e1, e0 := Binary(e);
    hide B;
  }

  lemma Packs7(d: nat, e: nat, f: nat)
    requires d < 16 && e < 16 && f < 16
    ensures var op := DecodeNibbles(7, d, e, f); Packable(op) && Encode(op) == Pack(7, d, e, f)
  {
    var d3, d2, d1, d0 := Binary(d);
    var f3, f2, f1, f0 := Binary(f);
    var e3, e2, e1, e0 := Binary(e);
    hide B;
  }

  lemma Packs8(d: nat, e: nat, f: nat)
    requires d < 16 && e < 16 && f < 16
    ensures var op := DecodeNibbles(8, d, e, f); Packable(op) && Encode(op) == Pack(8, d, e, f)
  {
  }

  lemma Packs9(d: nat, e: nat, f: nat)
    requires d < 16 && e < 16 && f < 16
    ensures var op := DecodeNibbles(9, d, e, f); Packable(op) && Encode(op) == Pack(9, d, e, f)
  {
  }

  lemma Packs10(d: nat, e: nat, f: nat)
    requires d < 16 && e < 16 && f < 16
    ensures var op := DecodeNibbles(10, d, e, f); Packable(op) && Encode(op) == Pack(10, d, e, f)
  {
    var e3, e2, e1, e0 := Binary(e);
    hide B;
  }

  lemma Packs11(d: nat, e: nat, f: nat)
    requires d < 16 && e < 16 && f < 16
    ensures var op := DecodeNibbles(11, d, e, f); Packable(op) && Encode(op) == Pack(11, d, e, f)
  {
    var e3, e2, e1, e0 := Binary(e);
    hide B;
  }

  lemma Packs12(d: nat, e: nat, f: nat)
    requires d < 16 && e < 16 && f < 16
    ensures var op := DecodeNibbles(12, d, e, f); Packable(op) && Encode(op) == Pack(12, d, e, f)
  {
  }

  lemma Packs13(d: nat, e: nat, f: nat)
    requires d < 16 && e < 16 && f < 16
    ensures var op := DecodeNibbles(13, d, e, f); Packable(op) && Encode(op) == Pack(13, d, e, f)
  {
  }

  lemma Packs14(d: nat, e: nat, f: nat)
    requires d < 16 && e < 16 && f < 16
    ensures var op := DecodeNibbles(14, d, e, f); Packable(op) && Encode(op) == Pack(14, d, e, f)
  {
  }

  lemma Packs15(d: nat, e: nat, f: nat)
    requires d < 16 && e < 16 && f < 16
    ensures var op := DecodeNibbles(15, d, e, f); Packable(op) && Encode(op) == Pack(15, d, e, f)
  {
  }

  lemma Packs(c: nat, d: nat, e: nat, f: nat)
    requires 1 <= c < 16 && d < 16 && e < 16 && f < 16
    ensures var op := DecodeNibbles(c, d, e, f); Packable(op) && Encode(op) == Pack(c, d, e, f)
  {
    hide *;
    match c
    case 1 => Packs1(d, e, f);
    case 2 => Packs2(d, e, f);
    case 3 => Packs3(d, e, f);
    case 4 => Packs4(d, e, f);
    case 5 => Packs5(d, e, f);
    case 6 => Packs6(d, e, f);
    case 7 => Packs7(d, e, f);
    case 8 => Packs8(d, e, f);
    case 9 => Packs9(d, e, f);
    case 10 => Packs10(d, e, f);
    case 11 => Packs11(d, e, f);
    case 12 => Packs12(d, e, f);
    case 13 => Packs13(d, e, f);
    case 14 => Packs14(d, e, f);
    case _ => Packs15(d, e, f);
  }

  /** Every word from 1000 on is the encoding of the operator it is decoded to, whose fields stand at their places. */
  lemma EncodesBack(w: nat)
    requires 0x1000 <= w < 0x1_0000
    ensures Packable(Decode(w)) && Encode(Decode(w)) == w && Placed(Decode(w), w)
  {
    Nibbles(w);
    Packs(MC(w), MD(w), ME(w), MF(w));
    hide DecodeNibbles, Encode, Pack, MC, MD, ME, MF, Packable, Placed;
    FieldsPlaced(Decode(w));
  }

  /** Below 1000 the second digit decides; what has no meaning there does nothing. */
  lemma SmallWords(w: nat)
    requires w < 0x1000
    ensures var d, e, f, op := w / 0x100, w / 0x10 % 16, w % 16, Decode(w);
      op ==
        if w == 1 then Overlay
        else if w == 2 then Halt
        else if w == 3 then Normalize
        else if d == 0 && e == 1 then Dispatch(1)
        else if d == 0 && e == 3 then Bias(f % 8, false)
        else if d == 1 then Dispatch(e)
        else if d == 3 then Bias(f % 8, Flag(w, 0x80))
        else if d == 4 then ShiftXY(Flag(w, 0x80), Flag(w, 0x40), Flag(w, 0x20), At(w, 1, 32))
        else if d == 5 then ShiftConcat(Flag(w, 0x80))
        else if d == 6 && e == 0 then CarryFF(f)
        else if d == 6 then Count(At(w, 0x20, 8), At(w, 1, 32))
        else if d == 7 then Exchange(e, f)
        else if d == 8 then Relate(e, Flag(w, 8))
        else if d == 9 then Monitor
        else Nop
  {
    var d, e, f := w / 0x100, w / 0x10 % 16, w % 16;
    SmallNibbles(w);
    SmallFlags(w);
    SmallCounts(w);
    assert Decode(w) == DecodeSecondary(d, e, f);
    hide Decode, MC, MD, ME, MF, At;
  }

  lemma SmallNibbles(w: nat)
    requires w < 0x1000
    ensures MC(w) == 0 && MD(w) == w / 0x100 && ME(w) == w / 0x10 % 16 && MF(w) == w % 16
    ensures w / 0x100 == 0 && w / 0x10 % 16 == 0 ==> w == w % 16
    ensures w < 16 ==> w / 0x100 == 0 && w / 0x10 % 16 == 0
  {
  }

  lemma SmallSplit(w: nat)
    requires w < 0x1000
    ensures w / 0x100 < 16 && w == w / 0x100 * 0x100 + w / 0x10 % 16 * 0x10 + w % 16
  {
    Nibbles(w);
  }

  lemma SmallFlags(w: nat)
    requires w < 0x1000
    ensures var e := w / 0x10 % 16;
      At(w, 0x80, 2) == e / 8 && At(w, 0x40, 2) == e / 4 % 2 && At(w, 0x20, 2) == e / 2 % 2
  {
    var d, e, f := w / 0x100, w / 0x10 % 16, w % 16;
    SmallSplit(w);
    var e3, e2, e1, e0 := Binary(e);
    Digits(w, d, e3, 2, e2, 2, e1, 2, e0, 2, f, 16);
  }

  lemma SmallCounts(w: nat)
    requires w < 0x1000
    ensures var e, f := w / 0x10 % 16, w % 16;
      At(w, 0x20, 8) == e / 2 && At(w, 1, 32) == e % 2 * 16 + f && At(w, 8, 2) == f / 8
  {
    var d, e, f := w / 0x100, w / 0x10 % 16, w % 16;
    SmallSplit(w);
    var e3, e2, e1, e0 := Binary(e);
    var f3, f2, f1, f0 := Binary(f);
    var low, half := 16 * e0 + f, 4 * e3 + 2 * e2 + e1;
    Digits(w, 0, 0, 1, 0, 1, d, 16, half, 8, low, 32);
    Digits(w, 0, 0, 1, d, 16, e, 16, f3, 2, f % 8, 8);
  }
}
