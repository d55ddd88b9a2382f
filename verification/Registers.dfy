/** The register file: what each group/select address reads and writes, the nibble views of T, L
    and FB, the A-stack ring, the combinatorial function box and the condition registers.
    The widths of the registers are in their types. */
module Registers {
  import opened Bits

  type Word = n: nat | n < 0x100_0000   // 24 bits
  type Addr = n: nat | n < 0x8_0000     // 19 bits
  type Half = n: nat | n < 0x1_0000     // 16 bits
  type Octet = n: nat | n < 0x100       // 8 bits
  type Nib = n: nat | n < 0x10          // 4 bits

  const MAX_STACK: nat := 32

  datatype Pad = Pad(left: Word, right: Word)

  type Pads = s: seq<Pad> | |s| == 16 witness seq(16, _ => Pad(0, 0))
  type Stack = s: seq<Word> | |s| == 32 witness seq(32, _ => 0)
  type StackIndex = n: nat | n < 32
  type StackDepth = n: nat | 1 <= n <= 32 witness 16

  /** Registers that a process switch neither saves nor restores. */
  datatype Latches = Latches(ca: Nib, cb: Nib, cc: Nib, cd: Nib, bicn: Nib, maxs: Word, maxm: Word,
                             cmnd: Word, data: Word, tempb: Addr, pending: bool, pendingValue: Half)

  datatype Regs = Regs(x: Word, y: Word, t: Word, l: Word, fa: Word, fb: Word, br: Word, lr: Word,
                       mar: Addr, m: Half, u: Half, cp: Octet,
                       stack: Stack, sp: StackIndex, depth: StackDepth, pads: Pads, halted: bool, lat: Latches)

  // ----- reset -----

  const NO_LATCHES: Latches := Latches(0, 0, 0, 0, 0, 0, 0, 0, 0, 0, false, 0)

  function Zeros(n: nat): (z: seq<Word>)
    ensures |z| == n && forall i :: 0 <= i < n ==> z[i] == 0
  {
    if n == 0 then [] else Zeros(n - 1) + [0]
  }

  function BlankPads(n: nat): (z: seq<Pad>)
    ensures |z| == n && forall i :: 0 <= i < n ==> z[i] == Pad(0, 0)
  {
    if n == 0 then [] else BlankPads(n - 1) + [Pad(0, 0)]
  }

  /** A fresh register file. */
  function Fresh(): Regs {
    Regs(0, 0, 0, 0, 0, 0, 0, 0, 0, 0, 0, 0, Zeros(32), 0, 16, BlankPads(16), false, NO_LATCHES)
  }

  // ----- sub-fields -----

  function CPL(cp: nat): nat { cp / 8 % 32 }
  function CPU(cp: nat): nat { cp / 2 % 4 }
  function SetCPL(cp: Octet, v: nat): Octet { cp % 8 + v % 32 * 8 }
  function SetCPU(cp: Octet, v: nat): Octet { cp / 8 * 8 + v % 4 * 2 + cp % 2 }
  function SetCYF(cp: Octet, v: nat): Octet { cp / 2 * 2 + v % 2 }

  function FL(fb: nat): (fl: nat)
    ensures fl < K16
  {
    fb % K16
  }

  function SetFL(fb: Word, v: nat): (r: Word)
    ensures FL(r) == v % K16 && r / K16 == fb / K16
  {
    fb / K16 * K16 + v % K16
  }

  /** The place value of nibble k (0 the most significant) of a 24-bit register. */
  function NibPlace(k: nat): (p: nat)
    ensures p > 0
  {
    match k
    case 0 => 0x10_0000
    case 1 => 0x1_0000
    case 2 => 0x1000
    case 3 => 0x100
    case 4 => 0x10
    case _ => 1
  }

  function GetNib(v: nat, k: nat): (r: nat)
    ensures r < 16
  {
    v / NibPlace(k) % 16
  }

  function SetNib(v: Word, k: nat, n: Nib): (r: Word)
    requires k < 6
  {
    if k == 0 then n * 0x10_0000 + v % 0x10_0000
    else if k == 1 then v / 0x10_0000 * 0x10_0000 + n * 0x1_0000 + v % 0x1_0000
    else if k == 2 then v / 0x1_0000 * 0x1_0000 + n * 0x1000 + v % 0x1000
    else if k == 3 then v / 0x1000 * 0x1000 + n * 0x100 + v % 0x100
    else if k == 4 then v / 0x100 * 0x100 + n * 0x10 + v % 0x10
    else v / 0x10 * 0x10 + n
  }

  // ----- A-stack -----

  function Push(r: Regs, v: Word): Regs {
    var p := (r.sp + 1) % r.depth;
    r.(sp := p, stack := r.stack[p := v])
  }

  function Top(r: Regs): Word {
    r.stack[r.sp]
  }

  function Pop(r: Regs): Regs {
    r.(sp := (r.sp + r.depth - 1) % r.depth)
  }

  // ----- function box -----

  /** Operand width: CPL, where zero stands for 24. */
  function Width(cp: nat): (w: nat)
    ensures 1 <= w < 32
  {
    if CPL(cp) == 0 then 24 else CPL(cp)
  }

  /** v masked to the operand width. */
  function Masked(v: nat, cp: nat): (r: nat)
    ensures r <= AllOnes(cp) < K24
  {
    if Width(cp) >= 24 then v % K24 else v % Pow2(Width(cp))
  }

  /** Decimal addition digit by digit, from the least significant of n digits. */
  function BcdAdd(x: nat, y: nat, n: nat, carry: nat): nat {
    if n == 0 then 0
    else
      var sum := x % 16 + y % 16 + carry;
      if sum >= 10 then (sum - 10) % 16 + 16 * BcdAdd(x / 16, y / 16, n - 1, 1)
      else sum + 16 * BcdAdd(x / 16, y / 16, n - 1, 0)
  }

  function BcdSub(x: nat, y: nat, n: nat, borrow: nat): nat {
    if n == 0 then 0
    else
      var diff := x % 16 - y % 16 - borrow;
      if diff < 0 then (diff + 10) % 16 + 16 * BcdSub(x / 16, y / 16, n - 1, 1)
      else diff + 16 * BcdSub(x / 16, y / 16, n - 1, 0)
  }

  function Digits(cp: nat): nat { (Width(cp) + 3) / 4 }

  function Sum(x: Word, y: Word, cp: nat): Word {
    var mx, my := Masked(x, cp), Masked(y, cp);
    if CPU(cp) == 1 then Masked(BcdAdd(mx, my, Digits(cp), 0), cp) else Masked(mx + my, cp)
  }

  /** Binary difference in two's complement at the operand width. */
  function Diff(x: Word, y: Word, cp: nat): Word {
    var mx, my := Masked(x, cp), Masked(y, cp);
    if CPU(cp) == 1 then Masked(BcdSub(mx, my, Digits(cp), 0), cp)
    else if mx >= my then mx - my
    else Masked(mx + AllOnes(cp) + 1 - my, cp)
  }

  function AllOnes(cp: nat): (r: Word)
    ensures r + 1 == (if Width(cp) >= 24 then K24 else Pow2(Width(cp)))
  {
    if Width(cp) >= 24 then K24 - 1
    else
      Pow2Monotone(Width(cp), 24);
      Pow2Values();
      Pow2(Width(cp)) - 1
  }

  /** Outputs 0-8: SUM, CMPX, CMPY, XANY, XEQY, MSKX, MSKY, XORY, DIFF. */
  function FunctionBox(r: Regs, id: nat): Word {
    var mx, my := Masked(r.x, r.cp), Masked(r.y, r.cp);
    match id
    case 0 => Sum(r.x, r.y, r.cp)
    case 1 => AllOnes(r.cp) - mx
    case 2 => AllOnes(r.cp) - my
    case 3 => BitAnd(mx, my)
    case 4 => if mx == my then AllOnes(r.cp) else 0
    case 5 => mx
    case 6 => my
    case 7 => Xor24(mx, my)
    case _ => Diff(r.x, r.y, r.cp)
  }

  function Xor24(a: Word, b: Word): Word {
    Pow2Values();
    OrXorRange(a, b, 24);
    BitXor(a, b)
  }

  // ----- condition registers -----

  function FLCN(fb: nat, pad0: Pad): Nib {
    var fl, sfl := FL(fb), pad0.right % K16;
    B(fl == 0) * 8 + B(fl < sfl) * 4 + B(fl > sfl) * 2 + B(fl == sfl)
  }

  function XYCN(x: nat, y: nat, cp: nat): Nib {
    var mx, my := Masked(x, cp), Masked(y, cp);
    B(mx > my) * 8 + B(mx < my) * 4 + B(mx == my) * 2 + B(Bit(mx, Width(cp) - 1))
  }

  function XYST(cc: nat): Nib {
    B(cc % 8 != 0) * 2
  }

  // ----- group/select addressing -----

  function ReadReg(r: Regs, g: nat, s: nat): Word {
    match g
    case 0 => if s < 4 then GetNib(r.t, s) else 0
    case 1 => if s < 4 then GetNib(r.fb, s) else 0
    case 2 => if s == 0 then r.x else if s == 1 then r.y else if s == 2 then r.t else if s == 3 then r.l else 0
    case 3 => if s < 4 then FunctionBox(r, s) else 0
    case 4 => ReadSlot(s, GetNib(r.t, 4), GetNib(r.fb, 4), r.mar, FunctionBox(r, 4))
    case 5 => ReadSlot(s, GetNib(r.t, 5), GetNib(r.fb, 5), r.m, FunctionBox(r, 5))
    case 6 => ReadSlot(s, r.lat.ca, r.lat.bicn, r.br, FunctionBox(r, 6))
    case 7 => ReadSlot(s, r.lat.cb, FLCN(r.fb, r.pads[0]), r.lr, FunctionBox(r, 7))
    case 8 => ReadSlot(s, GetNib(r.l, 0), 0, r.fa, FunctionBox(r, 8))
    case 9 => ReadSlot(s, GetNib(r.l, 1), 0, r.fb, r.lat.maxs)
    case 10 => ReadSlot(s, GetNib(r.l, 2), 0, FL(r.fb), r.lat.maxm)
    case 11 => ReadSlot(s, GetNib(r.l, 3), 0, Top(r), r.u)
    case 12 => ReadSlot(s, GetNib(r.l, 4), XYCN(r.x, r.y, r.cp), r.cp, 0)
    case 13 => ReadSlot(s, GetNib(r.l, 5), XYST(r.lat.cc), 0, r.lat.data)
    case 14 => ReadSlot(s, r.lat.cc, 0, 0, 0)
    case 15 => ReadSlot(s, r.lat.cd, r.cp / 2, 0, 0)
    case _ => 0
  }

  function ReadSlot(s: nat, a: Word, b: Word, c: Word, d: Word): Word {
    match s
    case 0 => a
    case 1 => b
    case 2 => c
    case 3 => d
    case _ => 0
  }

  function WriteReg(r: Regs, g: nat, s: nat, v: nat): Regs {
    match g
    case 0 => if s < 4 then r.(t := SetNib(r.t, s, v % 16)) else r
    case 1 => if s < 4 then r.(fb := SetNib(r.fb, s, v % 16)) else r
    case 2 =>
      if s == 0 then r.(x := v % K24) else if s == 1 then r.(y := v % K24)
      else if s == 2 then r.(t := v % K24) else if s == 3 then r.(l := v % K24) else r
    case 4 =>
      if s == 0 then r.(t := SetNib(r.t, 4, v % 16)) else if s == 1 then r.(fb := SetNib(r.fb, 4, v % 16))
      else if s == 2 then r.(mar := v % K19) else r
    case 5 =>
      if s == 0 then r.(t := SetNib(r.t, 5, v % 16)) else if s == 1 then r.(fb := SetNib(r.fb, 5, v % 16))
      else if s == 2 then r.(lat := r.lat.(pending := true, pendingValue := v % K16)) else r
    case 6 =>
      if s == 0 then r.(lat := r.lat.(ca := v % 16)) else if s == 2 then r.(br := v % K24) else r
    case 7 =>
      if s == 0 then r.(lat := r.lat.(cb := v % 16)) else if s == 2 then r.(lr := v % K24) else r
    case 8 => if s == 0 then r.(l := SetNib(r.l, 0, v % 16)) else if s == 2 then r.(fa := v % K24) else r
    case 9 => if s == 0 then r.(l := SetNib(r.l, 1, v % 16)) else if s == 2 then r.(fb := v % K24) else r
    case 10 => if s == 0 then r.(l := SetNib(r.l, 2, v % 16)) else if s == 2 then r.(fb := SetFL(r.fb, v)) else r
    case 11 => if s == 0 then r.(l := SetNib(r.l, 3, v % 16)) else if s == 2 then Push(r, v % K24) else r
    case 12 => if s == 0 then r.(l := SetNib(r.l, 4, v % 16)) else if s == 2 then r.(cp := v % K8) else r
    case 13 =>
      if s == 0 then r.(l := SetNib(r.l, 5, v % 16))
      else if s == 3 then r.(lat := r.lat.(data := v % K24)) else r
    case 14 =>
      if s == 0 then r.(lat := r.lat.(cc := v % 16))
      else if s == 3 then r.(lat := r.lat.(cmnd := v % K24)) else r
    case 15 =>
      if s == 0 then r.(lat := r.lat.(cd := v % 16))
      else if s == 1 then r.(cp := SetCPU(r.cp, v)) else r
    case _ => r
  }
}
