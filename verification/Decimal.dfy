/** The decimal function box: SUM and DIFF on binary-coded decimal operands. */
module Decimal {
  import opened Bits
  import opened Registers
  import opened OperandWidth

  function Pow10(n: nat): (p: nat)
    ensures p >= 1
  {
    if n == 0 then 1 else 10 * Pow10(n - 1)
  }

  /** v is n decimal digits of four bits. */
  predicate IsDecimal(v: nat, n: nat) {
    if n == 0 then v == 0 else v % 16 < 10 && IsDecimal(v / 16, n - 1)
  }

  /** The number that the digits of v stand for. */
  function Number(v: nat, n: nat): nat {
    if n == 0 then 0 else v % 16 + 10 * Number(v / 16, n - 1)
  }

  lemma {:induction false} NumberRange(v: nat, n: nat)
    requires IsDecimal(v, n)
    ensures Number(v, n) < Pow10(n) && v < Pow2(4 * n)
  {
    if n > 0 {
      NumberRange(v / 16, n - 1);
      assert Pow2(4 * n) == 16 * Pow2(4 * (n - 1)) by {
        Pow2Add(4 * (n - 1), 4);
        Pow2Values();
      }
    }
  }

  /** Numbers determine digits. */
  lemma {:induction false} NumberInjective(v: nat, w: nat, n: nat)
    requires IsDecimal(v, n) && IsDecimal(w, n) && Number(v, n) == Number(w, n)
    ensures v == w
  {
    if n > 0 {
      NumberInjective(v / 16, w / 16, n - 1);
    }
  }

  /** The low digit splits off a remainder. */
  lemma DigitMod(d: int, r: int, p: nat)
    requires 0 <= d < 10 && p > 0
    ensures (d + 10 * r) % (10 * p) == d + 10 * (r % p)
  {
    var q, m := r / p, r % p;
    assert r == q * p + m;
    assert d + 10 * r == q * (10 * p) + (d + 10 * m) by {
      assert 10 * (q * p) == q * (10 * p);
    }
    ModUnique(q, d + 10 * m, 10 * p);
  }

  lemma ModUnique(q: int, r: int, d: nat)
    requires 0 <= r < d
    ensures (q * d + r) % d == r
  {
    Unique(q, r, d);
  }

  lemma FirstDigit(v: nat, n: nat)
    requires n > 0 && IsDecimal(v, n)
    ensures v % 16 < 10 && IsDecimal(v / 16, n - 1) && Number(v, n) == v % 16 + 10 * Number(v / 16, n - 1)
  {
  }

  lemma NoDigits(v: nat, w: nat, c: nat)
    ensures Number(v, 0) == 0 && BcdAdd(v, w, 0, c) == 0 && BcdSub(v, w, 0, c) == 0 && IsDecimal(0, 0) && Pow10(0) == 1
  {
  }

  lemma OnePower(n: nat)
    requires n > 0
    ensures Pow10(n) == 10 * Pow10(n - 1)
  {
  }

  /** One digit of a sum: the digit and the carry. */
  lemma AddsDigit(x: nat, y: nat, n: nat, carry: nat) returns (d: nat, c: nat)
    requires n > 0 && x % 16 < 10 && y % 16 < 10 && carry <= 1
    ensures d < 10 && c <= 1 && x % 16 + y % 16 + carry == d + 10 * c
    ensures BcdAdd(x, y, n, carry) == d + 16 * BcdAdd(x / 16, y / 16, n - 1, c)
  {
    var sum := x % 16 + y % 16 + carry;
    d := if sum >= 10 then sum - 10 else sum;
    c := if sum >= 10 then 1 else 0;
  }

  lemma SubtractsDigit(x: nat, y: nat, n: nat, borrow: nat) returns (d: nat, c: nat)
    requires n > 0 && x % 16 < 10 && y % 16 < 10 && borrow <= 1
    ensures d < 10 && c <= 1 && (x % 16) as int - (y % 16) as int - borrow == d as int - 10 * c
    ensures BcdSub(x, y, n, borrow) == d + 16 * BcdSub(x / 16, y / 16, n - 1, c)
  {
    var diff: int := (x % 16) as int - (y % 16) as int - borrow;
    d := if diff < 0 then diff + 10 else diff;
    c := if diff < 0 then 1 else 0;
  }

  lemma {:induction false} AddsNumbers(x: nat, y: nat, n: nat, carry: nat)
    requires IsDecimal(x, n) && IsDecimal(y, n) && carry <= 1
    ensures var r := BcdAdd(x, y, n, carry);
      IsDecimal(r, n) && Number(r, n) == (Number(x, n) + Number(y, n) + carry) % Pow10(n)
    decreases n
  {
    hide *;
    NoDigits(x, y, carry);
    NoDigits(y, x, carry);
    NoDigits(0, 0, 0);
    if n > 0 {
      FirstDigit(x, n);
      FirstDigit(y, n);
      var d, c := AddsDigit(x, y, n, carry);
      AddsNumbers(x / 16, y / 16, n - 1, c);
      DigitMod(d, Number(x / 16, n - 1) + Number(y / 16, n - 1) + c, Pow10(n - 1));
      AppendDigit(d, BcdAdd(x / 16, y / 16, n - 1, c), n);
      OnePower(n);
    }
  }

  lemma AppendDigit(d: nat, rest: nat, n: nat)
    requires n > 0 && d < 10 && IsDecimal(rest, n - 1)
    ensures IsDecimal(d + 16 * rest, n) && Number(d + 16 * rest, n) == d + 10 * Number(rest, n - 1)
  {
    assert (d + 16 * rest) % 16 == d && (d + 16 * rest) / 16 == rest;
  }

  lemma {:induction false} SubtractsNumbers(x: nat, y: nat, n: nat, borrow: nat)
    requires IsDecimal(x, n) && IsDecimal(y, n) && borrow <= 1
    ensures var r := BcdSub(x, y, n, borrow);
      IsDecimal(r, n) && Number(r, n) == (Number(x, n) - Number(y, n) - borrow) % Pow10(n)
    decreases n
  {
    hide *;
    NoDigits(x, y, borrow);
    NoDigits(y, x, borrow);
    NoDigits(0, 0, 0);
    if n > 0 {
      FirstDigit(x, n);
      FirstDigit(y, n);
      var d, c := SubtractsDigit(x, y, n, borrow);
      SubtractsNumbers(x / 16, y / 16, n - 1, c);
      DigitMod(d, Number(x / 16, n - 1) - Number(y / 16, n - 1) - c, Pow10(n - 1));
      AppendDigit(d, BcdSub(x / 16, y / 16, n - 1, c), n);
      OnePower(n);
    }
  }

  /** Decimal mode with an operand width of n digits. */
  predicate DecimalMode(cp: nat, n: nat) {
    cp / 2 % 4 == 1 && 1 <= n <= 6 && OperandLength(cp) == 4 * n
  }

  lemma MaskedSmall(v: nat, cp: nat)
    requires v < Pow2(Width(cp)) && v < 0x100_0000
    ensures Masked(v, cp) == v
  {
    DivMod(0, v, Pow2(Width(cp)));
    hide Width, Pow2;
  }

  lemma DigitCount(cp: nat, n: nat)
    requires DecimalMode(cp, n)
    ensures Digits(cp) == n && Width(cp) == 4 * n <= 24 && CPU(cp) == 1
  {
    WidthIs(cp);
    hide Width, OperandLength;
  }

  /** The operand has its low n digits. */
  lemma LowDigits(v: nat, cp: nat, n: nat)
    requires DecimalMode(cp, n)
    ensures Masked(v, cp) == v % Pow2(4 * n)
  {
    MaskedIsMod(v, cp);
    ModulusPower(cp);
    hide Masked, Pow2, OperandLength, Modulus;
  }

  lemma MaskedDecimal(v: nat, cp: nat, n: nat)
    requires DecimalMode(cp, n) && IsDecimal(v, n)
    ensures Masked(v, cp) == v && Digits(cp) == n && v < 0x100_0000
  {
    hide *;
    NumberRange(v, n);
    DigitCount(cp, n);
    Power24();
    Pow2Monotone(4 * n, 24);
    MaskedSmall(v, cp);
  }

  lemma Power24()
    ensures Pow2(24) == 0x100_0000
  {
    Pow2Values();
  }

  /** The low n digits of v. */
  function Low(v: nat, n: nat): nat {
    v % Pow2(4 * n)
  }

  /** SUM is addition modulo 10^n of the low n digits, in valid digits. */
  lemma SumIsDecimal(x: Word, y: Word, cp: Octet, n: nat)
    requires DecimalMode(cp, n) && IsDecimal(Low(x, n), n) && IsDecimal(Low(y, n), n)
    ensures IsDecimal(Sum(x, y, cp), n)
    ensures Number(Sum(x, y, cp), n) == (Number(Low(x, n), n) + Number(Low(y, n), n)) % Pow10(n)
  {
    LowDigits(x, cp, n);
    LowDigits(y, cp, n);
    DigitCount(cp, n);
    var mx, my := Masked(x, cp), Masked(y, cp);
    AddsNumbers(mx, my, n, 0);
    MaskedDecimal(mx, cp, n);
    MaskedDecimal(BcdAdd(mx, my, n, 0), cp, n);
    hide Masked, BcdAdd, Number, IsDecimal, CPU, DecimalMode;
  }

  /** DIFF is subtraction modulo 10^n of the low n digits, in valid digits. */
  lemma DiffIsDecimal(x: Word, y: Word, cp: Octet, n: nat)
    requires DecimalMode(cp, n) && IsDecimal(Low(x, n), n) && IsDecimal(Low(y, n), n)
    ensures IsDecimal(Diff(x, y, cp), n)
    ensures Number(Diff(x, y, cp), n) == (Number(Low(x, n), n) - Number(Low(y, n), n)) % Pow10(n)
  {
    LowDigits(x, cp, n);
    LowDigits(y, cp, n);
    DigitCount(cp, n);
    var mx, my := Masked(x, cp), Masked(y, cp);
    SubtractsNumbers(mx, my, n, 0);
    MaskedDecimal(mx, cp, n);
    MaskedDecimal(BcdSub(mx, my, n, 0), cp, n);
    hide Masked, BcdSub, Number, IsDecimal, CPU, DecimalMode;
  }

  lemma AddThenSubtract(a: nat, b: nat, p: nat)
    requires a < p
    ensures ((a + b) % p - b) % p == a
  {
    var q, r := (a + b) / p, (a + b) % p;
    assert a + b == q * p + r;
    assert r - b == (-q) * p + a;
    ModUnique(-q, a, p);
  }

  lemma LowIs(v: nat, n: nat)
    requires IsDecimal(v, n)
    ensures Low(v, n) == v
  {
    NumberRange(v, n);
    hide Pow2, IsDecimal, Number;
    ModUnique(0, v, Pow2(4 * n));
  }

  /** DIFF undoes SUM on the low n digits. */
  lemma DiffUndoesSum(x: Word, y: Word, cp: Octet, n: nat)
    requires DecimalMode(cp, n) && IsDecimal(Low(x, n), n) && IsDecimal(Low(y, n), n)
    ensures Diff(Sum(x, y, cp), y, cp) == Low(x, n)
  {
    hide *;
    var s, a, b := Sum(x, y, cp), Low(x, n), Low(y, n);
    SumIsDecimal(x, y, cp, n);
    LowIs(s, n);
    DiffIsDecimal(s, y, cp, n);
    NumberRange(a, n);
    AddThenSubtract(Number(a, n), Number(b, n), Pow10(n));
    NumberInjective(Diff(s, y, cp), a, n);
  }
}
