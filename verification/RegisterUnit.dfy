/** The register file as an object: fields changed in place, the A-stack and scratchpad as arrays, the decimal
    adder as a loop; proved against the register values it stands for. */
module RegisterUnit {
  import opened Bits
  import opened Registers

  lemma Carried(place: nat, d: nat, rest: nat)
    ensures place * (d + 16 * rest) == place * d + 16 * place * rest
  {
  }

  /** The low digit of a sum or difference, and what is carried or borrowed. */
  function SumDigit(a: nat, b: nat, carry: nat): (nat, nat) {
    var sum := a % 16 + b % 16 + carry;
    if sum >= 10 then ((sum - 10) % 16, 1) else (sum, 0)
  }

  function DiffDigit(a: nat, b: nat, borrow: nat): (nat, nat) {
    var diff: int := (a % 16) as int - (b % 16) as int - borrow as int;
    if diff < 0 then ((diff + 10) % 16, 1) else (diff, 0)
  }

  lemma AddStep(a: nat, b: nat, n: nat, carry: nat, place: nat)
    requires n > 0
    ensures var (d, c) := SumDigit(a, b, carry);
      place * BcdAdd(a, b, n, carry) == place * d + 16 * place * BcdAdd(a / 16, b / 16, n - 1, c)
  {
    var (d, c) := SumDigit(a, b, carry);
    assert BcdAdd(a, b, n, carry) == d + 16 * BcdAdd(a / 16, b / 16, n - 1, c);
    hide *;
    Carried(place, d, BcdAdd(a / 16, b / 16, n - 1, c));
  }

  lemma SubtractStep(a: nat, b: nat, n: nat, borrow: nat, place: nat)
    requires n > 0
    ensures var (d, c) := DiffDigit(a, b, borrow);
      place * BcdSub(a, b, n, borrow) == place * d + 16 * place * BcdSub(a / 16, b / 16, n - 1, c)
  {
    var (d, c) := DiffDigit(a, b, borrow);
    assert BcdSub(a, b, n, borrow) == d + 16 * BcdSub(a / 16, b / 16, n - 1, c);
    hide *;
    Carried(place, d, BcdSub(a / 16, b / 16, n - 1, c));
  }

  lemma NoDigits(a: nat, b: nat, carry: nat)
    ensures BcdAdd(a, b, 0, carry) == 0 && BcdSub(a, b, 0, carry) == 0
  {
  }

  /** Decimal addition digit by digit with a carry. */
  method AddDecimal(x: nat, y: nat, digits: nat) returns (result: nat)
    ensures result == BcdAdd(x, y, digits, 0)
  {
    hide BcdAdd, SumDigit;
    result := 0;
    var carry: nat, place: nat, a, b, i := 0, 1, x, y, 0;
    while i < digits
      invariant 0 <= i <= digits
      invariant BcdAdd(x, y, digits, 0) == result + place * BcdAdd(a, b, digits - i, carry)
    {
      AddStep(a, b, digits - i, carry, place);
      var (d, c) := SumDigit(a, b, carry);
      result := result + place * d;
      carry, place, a, b, i := c, 16 * place, a / 16, b / 16, i + 1;
    }
    NoDigits(a, b, carry);
  }

  /** Decimal subtraction digit by digit with a borrow. */
  method SubtractDecimal(x: nat, y: nat, digits: nat) returns (result: nat)
    ensures result == BcdSub(x, y, digits, 0)
  {
    hide BcdSub, DiffDigit;
    result := 0;
    var borrow: nat, place: nat, a, b, i := 0, 1, x, y, 0;
    while i < digits
      invariant 0 <= i <= digits
      invariant BcdSub(x, y, digits, 0) == result + place * BcdSub(a, b, digits - i, borrow)
    {
      SubtractStep(a, b, digits - i, borrow, place);
      var (d, c) := DiffDigit(a, b, borrow);
      result := result + place * d;
      borrow, place, a, b, i := c, 16 * place, a / 16, b / 16, i + 1;
    }
    NoDigits(a, b, borrow);
  }

  class RegisterFile {
    var x: Word
    var y: Word
    var t: Word
    var l: Word
    var fa: Word
    var fb: Word
    var br: Word
    var lr: Word
    var mar: Addr
    var m: Half
    var u: Half
    var cp: Octet
    const stack: array<Word>
    var sp: StackIndex
    var depth: StackDepth
    const pads: array<Pad>
    var halted: bool
    var lat: Latches

    constructor ()
      ensures Valid() && fresh(stack) && fresh(pads) && Value() == Fresh()
    {
      x, y, t, l, fa, fb, br, lr := 0, 0, 0, 0, 0, 0, 0, 0;
      mar, m, u, cp, sp, depth, halted := 0, 0, 0, 0, 0, 16, false;
      lat := NO_LATCHES;
      stack := new Word[32](_ => 0);
      pads := new Pad[16](_ => Pad(0, 0));
      new;
      assert stack[..] == Zeros(32) && pads[..] == BlankPads(16);
    }

    ghost predicate Valid()
    {
      stack.Length == 32 && pads.Length == 16
    }

    /** The register values. */
    ghost function Value(): Regs
      requires Valid()
      reads this, stack, pads
    {
      Regs(x, y, t, l, fa, fb, br, lr, mar, m, u, cp, stack[..], sp, depth, pads[..], halted, lat)
    }

    method PushValue(v: Word)
      requires Valid()
      modifies this`sp, stack
      ensures Value() == Push(old(Value()), v)
    {
      sp := (sp + 1) % depth;
      stack[sp] := v;
    }

    method PopValue() returns (v: Word)
      requires Valid()
      modifies this`sp
      ensures v == Top(old(Value())) && Value() == Pop(old(Value()))
    {
      v := stack[sp];
      sp := (sp + depth - 1) % depth;
    }

    /** The nine outputs of the function box. */
    method Output(id: nat) returns (v: Word)
      requires Valid() && id <= 8
      ensures v == FunctionBox(Value(), id)
    {
      hide Masked, AllOnes, BitAnd, Xor24, BcdAdd, BcdSub, Digits, CPU, Pow2, Width;
      var mx, my := Masked(x, cp), Masked(y, cp);
      if id == 0 {
        if CPU(cp) == 1 {
          var sum := AddDecimal(mx, my, Digits(cp));
          v := Masked(sum, cp);
        } else {
          v := Masked(mx + my, cp);
        }
      } else if id == 8 {
        if CPU(cp) == 1 {
          var diff := SubtractDecimal(mx, my, Digits(cp));
          v := Masked(diff, cp);
        } else {
          v := if mx >= my then mx - my else Masked(mx + AllOnes(cp) + 1 - my, cp);
        }
      } else {
        match id {
          case 1 => v := AllOnes(cp) - mx;
          case 2 => v := AllOnes(cp) - my;
          case 3 => v := BitAnd(mx, my);
          case 4 => v := if mx == my then AllOnes(cp) else 0;
          case 5 => v := mx;
          case 6 => v := my;
          case _ => v := Xor24(mx, my);
        }
      }
    }

    /** Reads a register by group and select. */
    method Read(group: nat, select: nat) returns (v: Word)
      requires Valid()
      ensures v == ReadReg(Value(), group, select)
    {
      hide GetNib, FLCN, XYCN, XYST, FL, FunctionBox;
      v := 0;
      if group == 3 && select < 4 {
        v := Output(select);
      } else if 4 <= group <= 8 && select == 3 {
        v := Output(group);
      } else {
        match group {
          case 0 => if select < 4 { v := GetNib(t, select); }
          case 1 => if select < 4 { v := GetNib(fb, select); }
          case 2 => v := ReadSlot(select, x, y, t, l);
          case 4 => v := ReadSlot(select, GetNib(t, 4), GetNib(fb, 4), mar, 0);
          case 5 => v := ReadSlot(select, GetNib(t, 5), GetNib(fb, 5), m, 0);
          case 6 => v := ReadSlot(select, lat.ca, lat.bicn, br, 0);
          case 7 => v := ReadSlot(select, lat.cb, FLCN(fb, pads[0]), lr, 0);
          case 8 => v := ReadSlot(select, GetNib(l, 0), 0, fa, 0);
          case 9 => v := ReadSlot(select, GetNib(l, 1), 0, fb, lat.maxs);
          case 10 => v := ReadSlot(select, GetNib(l, 2), 0, FL(fb), lat.maxm);
          case 11 => v := ReadSlot(select, GetNib(l, 3), 0, stack[sp], u);
          case 12 => v := ReadSlot(select, GetNib(l, 4), XYCN(x, y, cp), cp, 0);
          case 13 => v := ReadSlot(select, GetNib(l, 5), XYST(lat.cc), 0, lat.data);
          case 14 => v := ReadSlot(select, lat.cc, 0, 0, 0);
          case 15 => v := ReadSlot(select, lat.cd, cp / 2, 0, 0);
          case _ =>
        }
      }
    }

    /** Writes a register by group and select; read-only and unused addresses ignore the value. */
    method Write(group: nat, select: nat, value: nat)
      requires Valid()
      modifies this, stack
      ensures Value() == WriteReg(old(Value()), group, select, value)
    {
      if group < 8 {
        WriteLow(group, select, value);
      } else {
        WriteHigh(group, select, value);
      }
      hide WriteReg;
    }

    method WriteLow(group: nat, select: nat, value: nat)
      requires Valid() && group < 8
      modifies this, stack
      ensures Value() == WriteReg(old(Value()), group, select, value)
    {
      hide SetNib, Push;
      match group {
        case 0 => if select < 4 { t := SetNib(t, select, value % 16); }
        case 1 => if select < 4 { fb := SetNib(fb, select, value % 16); }
        case 2 =>
          if select == 0 { x := value % K24; }
          else if select == 1 { y := value % K24; }
          else if select == 2 { t := value % K24; }
          else if select == 3 { l := value % K24; }
        case 4 =>
          if select == 0 { t := SetNib(t, 4, value % 16); }
          else if select == 1 { fb := SetNib(fb, 4, value % 16); }
          else if select == 2 { mar := value % K19; }
        case 5 =>
          if select == 0 { t := SetNib(t, 5, value % 16); }
          else if select == 1 { fb := SetNib(fb, 5, value % 16); }
          else if select == 2 { lat := lat.(pending := true, pendingValue := value % K16); }
        case 6 =>
          if select == 0 { lat := lat.(ca := value % 16); } else if select == 2 { br := value % K24; }
        case 7 =>
          if select == 0 { lat := lat.(cb := value % 16); } else if select == 2 { lr := value % K24; }
        case _ =>
      }
    }

    method WriteHigh(group: nat, select: nat, value: nat)
      requires Valid() && group >= 8
      modifies this, stack
      ensures Value() == WriteReg(old(Value()), group, select, value)
    {
      hide SetNib, SetFL, SetCPU, Push;
      match group {
        case 8 =>
          if select == 0 { l := SetNib(l, 0, value % 16); } else if select == 2 { fa := value % K24; }
        case 9 =>
          if select == 0 { l := SetNib(l, 1, value % 16); } else if select == 2 { fb := value % K24; }
        case 10 =>
          if select == 0 { l := SetNib(l, 2, value % 16); } else if select == 2 { fb := SetFL(fb, value); }
        case 11 =>
          if select == 0 { l := SetNib(l, 3, value % 16); } else if select == 2 { PushValue(value % K24); }
        case 12 =>
          if select == 0 { l := SetNib(l, 4, value % 16); } else if select == 2 { cp := value % K8; }
        case 13 =>
          if select == 0 { l := SetNib(l, 5, value % 16); } else if select == 3 { lat := lat.(data := value % K24); }
        case 14 =>
          if select == 0 { lat := lat.(cc := value % 16); } else if select == 3 { lat := lat.(cmnd := value % K24); }
        case 15 =>
          if select == 0 { lat := lat.(cd := value % 16); } else if select == 1 { cp := SetCPU(cp, value); }
        case _ =>
      }
    }
  }
}
