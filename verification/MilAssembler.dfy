/** The MIL cross-assembler as it runs: one pass that emits words, keeps a label table, a list of forward references and
    a stack of open blocks, and patches; proved to produce the words of the finished program. */
module MilAssembler {
  import opened Bits
  import opened Isa
  import opened Registers
  import opened Mil
  import opened Lowering
  import opened Simulation

  datatype Fixup = Fixup(addr: nat, name: nat, isCall: bool)

  /** What the assembler has after some lines. */
  datatype Work = Work(code: seq<nat>, labels: map<nat, nat>, fixups: seq<Fixup>, blocks: seq<nat>, pending: bool,
                       skip: nat)

  // ----- programs the assembler accepts as they read -----

  /** Every label is defined once, every branch target is defined. */
  predicate LabelsFine(p: Program) {
    forall i :: 0 <= i < |p| ==>
      match p[i]
      case Label(n) => Target(p, n) == i
      case GoTo(n) => Target(p, n) < |p|
      case CallTo(n) => Target(p, n) < |p|
      case IfGoTo(_, n) => Target(p, n) < |p|
      case _ => true
  }

  /** Every BEGIN follows an IF...THEN and has its END. */
  predicate BlocksFine(p: Program) {
    forall i :: 0 <= i < |p| && p[i].Begin? ==> i > 0 && p[i - 1].IfThen? && FindEnd(p, i + 1, 0) < |p|
  }

  predicate CondsFine(p: Program) {
    forall i :: 0 <= i < |p| ==>
      match p[i]
      case IfGoTo(c, _) => Parses(c)
      case IfThen(c) => Parses(c)
      case SkipWhen(c) => !c.test.TBit?
      case _ => true
  }

  predicate Accepted(p: Program) {
    Fits(p) && LabelsFine(p) && BlocksFine(p) && CondsFine(p)
  }

  // ----- the words as the assembler computes them -----

  /** A branch word from the displacement to a label. */
  function BranchWord(disp: int, isCall: bool): nat {
    (if isCall then 0xE000 else 0xC000) + (if disp < 0 then 0x1000 else 0) + Abs(disp) % 0x1000
  }

  lemma BranchWordIs(a: nat, t: nat, isCall: bool)
    ensures BranchWord(t - (a + 1), isCall) == Encode(BranchTo(a, t, isCall))
  {
  }

  /** The word of a skip with its sense inverted. */
  function InvertedWord(w: nat): nat {
    var mc := w / 0x1000 % 16;
    if mc == 4 then 0x5000 + w % 0x1000
    else if mc == 5 then 0x4000 + w % 0x1000
    else if mc == 6 then w / 0x80 * 0x80 + (w / 16 % 8 + 4) % 8 * 16 + w % 16
    else w
  }

  lemma InvertsWord(c: Cond)
    requires Parses(c)
    ensures InvertedWord(Encode(IfOp(c))) == Encode(Invert(IfOp(c)))
  {
    match IfOp(c)
    case BitBranch(g, s, bit, neg, d, t) => InvertsBranch(g, s, bit, t);
    case Skip(g, s, fn, mask) => InvertsSkip(g, s, fn, mask);
    case _ =>
  }

  lemma InvertsBranch(g: nat, s: nat, bit: nat, t: bool)
    requires g < 16 && s < 2 && bit < 4
    ensures InvertedWord(Encode(BitBranch(g, s, bit, false, 1, t))) == Encode(BitBranch(g, s, bit, false, 1, !t))
  {
    var low := g * 256 + s * 128 + bit * 32 + 1;
    DivMod(4 + B(t), low, 0x1000);
  }

  lemma InvertsSkip(g: nat, s: nat, fn: nat, mask: nat)
    requires g < 16 && s < 2 && fn < 8 && mask < 16
    ensures InvertedWord(Encode(Skip(g, s, fn, mask))) == Encode(Skip(g, s, (fn + 4) % 8, mask))
  {
    var w := 0x6000 + g * 256 + s * 128 + fn * 16 + mask;
    DivMod(6, g * 256 + s * 128 + fn * 16 + mask, 0x1000);
    DivMod(0xC0 + 2 * g + s, fn * 16 + mask, 0x80);
    DivMod((0xC0 + 2 * g + s) * 8 + fn, mask, 16);
    DivMod(0xC0 + 2 * g + s, fn, 8);
  }

  // ----- what is known after i lines -----

  /** The skip at addr will be inverted by the BEGIN on line i. */
  predicate Awaits(p: Program, i: nat, addr: nat) {
    0 < i < |p| && p[i - 1].IfThen? && p[i].Begin? && addr == AddrOf(p, i - 1)
  }

  predicate Referred(fixups: seq<Fixup>, addr: nat) {
    exists k :: 0 <= k < |fixups| && fixups[k].addr == addr
  }

  /** Every word is final but for forward references, the jumps of open blocks and a skip about to be inverted. */
  ghost predicate WordsOk(p: Program, i: nat, w: Work) {
    && i <= |p| && |w.code| == AddrOf(p, i) <= |Code(p)|
    && forall a | 0 <= a < |w.code| && !Referred(w.fixups, a) && a !in w.blocks && !Awaits(p, i, a) ::
      w.code[a] == Code(p)[a]
  }

  predicate FixupOk(p: Program, size: nat, f: Fixup) {
    && f.addr < size <= |Code(p)| && Target(p, f.name) < |p|
    && Code(p)[f.addr] == Encode(BranchTo(f.addr, LabelAddr(p, f.name), f.isCall))
  }

  predicate FixupsOk(p: Program, w: Work) {
    forall k :: 0 <= k < |w.fixups| ==> FixupOk(p, |w.code|, w.fixups[k])
  }

  /** The jump at b belongs to a block that closes with d further blocks open at line i. */
  predicate BlockOk(p: Program, i: nat, size: nat, b: nat, d: nat)
    requires i <= |p|
  {
    && b < size <= |Code(p)| && FindEnd(p, i, d) < |p|
    && Code(p)[b] == Encode(BranchTo(b, AddrOf(p, FindEnd(p, i, d)), false))
  }

  predicate BlocksOk(p: Program, i: nat, w: Work)
    requires i <= |p|
  {
    forall k :: 0 <= k < |w.blocks| ==> BlockOk(p, i, |w.code|, w.blocks[k], |w.blocks| - 1 - k)
  }

  ghost predicate TableOk(p: Program, i: nat, labels: map<nat, nat>) {
    forall n: nat :: (n in labels <==> Target(p, n) < i) && (n in labels ==> labels[n] == LabelAddr(p, n))
  }

  predicate PendingOk(p: Program, i: nat, w: Work)
    requires i <= |p|
  {
    i > 0 && p[i - 1].IfThen? ==>
      w.pending && w.skip == AddrOf(p, i - 1) < |w.code| && w.code[w.skip] == Encode(IfOp(p[i - 1].cond))
  }

  ghost predicate Knows(p: Program, i: nat, w: Work) {
    WordsOk(p, i, w) && FixupsOk(p, w) && BlocksOk(p, i, w) && TableOk(p, i, w.labels) && PendingOk(p, i, w)
  }

  // ----- one line -----

  lemma SizeGrows(p: Program, i: nat)
    requires i < |p|
    ensures AddrOf(p, i + 1) == AddrOf(p, i) + Size(p[i]) <= |Code(p)|
    ensures forall k :: 0 <= k < Size(p[i]) ==> Code(p)[AddrOf(p, i) + k] == LineWords(p, i)[k]
  {
    hide Code, AddrOf, LineWords, Size;
    CodeAt(p, i);
    var a, b := AddrOf(p, i), AddrOf(p, i + 1);
    forall k | 0 <= k < Size(p[i])
      ensures Code(p)[a + k] == LineWords(p, i)[k]
    {
      assert Code(p)[a..b][k] == Code(p)[a + k];
    }
  }

  lemma StillReferred(fixups: seq<Fixup>, f: Fixup, a: nat)
    ensures Referred(fixups + [f], a) <==> Referred(fixups, a) || f.addr == a
  {
    if Referred(fixups, a) {
      var k :| 0 <= k < |fixups| && fixups[k].addr == a;
      assert (fixups + [f])[k].addr == a;
    }
    assert (fixups + [f])[|fixups|] == f;
  }

  lemma InAppended(s: seq<nat>, x: nat, a: nat)
    ensures a in s + [x] <==> a in s || a == x
  {
  }

  /** A line that defines no label and opens or closes no block leaves the tables as they were. */
  lemma TablesKept(p: Program, i: nat, w: Work, w': Work)
    requires i < |p| && Knows(p, i, w) && !p[i].Label? && !p[i].Begin? && !p[i].End?
    requires w'.labels == w.labels && w'.blocks == w.blocks && |w.code| <= |w'.code| <= |Code(p)|
    ensures TableOk(p, i + 1, w'.labels) && BlocksOk(p, i + 1, w')
    ensures forall k :: 0 <= k < |w.fixups| ==> FixupOk(p, |w'.code|, w.fixups[k])
  {
    hide Code, AddrOf, BranchTo, Encode, WordsOk, PendingOk;
    forall k | 0 <= k < |w.blocks|
      ensures BlockOk(p, i + 1, |w'.code|, w'.blocks[k], |w.blocks| - 1 - k)
    {
      assert BlockOk(p, i, |w.code|, w.blocks[k], |w.blocks| - 1 - k);
    }
    forall k | 0 <= k < |w.fixups|
      ensures FixupOk(p, |w'.code|, w.fixups[k])
    {
      assert FixupOk(p, |w.code|, w.fixups[k]);
    }
  }

  /** A line whose words are all final. */
  lemma Appends(p: Program, i: nat, w: Work, w': Work)
    requires i < |p| && Knows(p, i, w)
    requires !p[i].Label? && !p[i].Begin? && !p[i].End? && !p[i].IfThen?
    requires w' == w.(code := w.code + LineWords(p, i), pending := false)
    ensures Knows(p, i + 1, w')
  {
    hide Code, AddrOf, LineWords, Size, FixupOk, BlockOk, Referred;
    SizeGrows(p, i);
    TablesKept(p, i, w, w');
    assert WordsOk(p, i + 1, w');
  }

  /** A line that ends in a forward reference. */
  lemma AppendsReference(p: Program, i: nat, w: Work, w': Work, f: Fixup)
    requires i < |p| && Knows(p, i, w) && Size(p[i]) > 0
    requires !p[i].Label? && !p[i].Begin? && !p[i].End? && !p[i].IfThen?
    requires f.addr == AddrOf(p, i) + Size(p[i]) - 1 && Target(p, f.name) < |p|
    requires LineWords(p, i)[Size(p[i]) - 1] == Encode(BranchTo(f.addr, LabelAddr(p, f.name), f.isCall))
    requires w' == w.(code := w.code + LineWords(p, i)[..Size(p[i]) - 1] + [0], fixups := w.fixups + [f],
                      pending := false)
    ensures Knows(p, i + 1, w')
  {
    hide Code, AddrOf, LineWords, Size, BlockOk, Referred, BranchTo, Encode, Target, LabelAddr;
    SizeGrows(p, i);
    TablesKept(p, i, w, w');
    forall a | 0 <= a < |w'.code| && !Referred(w'.fixups, a) && a !in w'.blocks && !Awaits(p, i + 1, a)
      ensures w'.code[a] == Code(p)[a]
    {
      StillReferred(w.fixups, f, a);
      if a >= |w.code| {
        assert Code(p)[AddrOf(p, i) + (a - |w.code|)] == LineWords(p, i)[a - |w.code|];
      }
    }
    forall k | 0 <= k < |w'.fixups|
      ensures FixupOk(p, |w'.code|, w'.fixups[k])
    {
      if k == |w.fixups| {
        assert Code(p)[AddrOf(p, i) + (Size(p[i]) - 1)] == LineWords(p, i)[Size(p[i]) - 1];
      }
    }
  }

  lemma IfThenWords(p: Program, i: nat)
    requires i < |p| && p[i].IfThen?
    ensures Size(p[i]) == 1
    ensures !OpensBlock(p, i) ==> LineWords(p, i) == [Encode(IfOp(p[i].cond))]
    ensures OpensBlock(p, i) ==> LineWords(p, i) == [Encode(Invert(IfOp(p[i].cond)))]
  {
    hide Encode, IfOp, Invert, OpensBlock;
  }

  /** IF...THEN. */
  lemma AppendsSkip(p: Program, i: nat, w: Work, w': Work)
    requires i < |p| && Knows(p, i, w) && p[i].IfThen?
    requires w' == w.(code := w.code + [Encode(IfOp(p[i].cond))], pending := true, skip := |w.code|)
    ensures Knows(p, i + 1, w')
  {
    hide Code, AddrOf, LineWords, Size, FixupOk, BlockOk, Referred, Encode, IfOp, Invert;
    SizeGrows(p, i);
    IfThenWords(p, i);
    TablesKept(p, i, w, w');
    forall a | 0 <= a < |w'.code| && !Referred(w'.fixups, a) && a !in w'.blocks && !Awaits(p, i + 1, a)
      ensures w'.code[a] == Code(p)[a]
    {
      if a == |w.code| {
        assert Code(p)[AddrOf(p, i) + 0] == LineWords(p, i)[0];
      }
    }
  }

  lemma BeginWords(p: Program, i: nat)
    requires i < |p| && p[i].Begin?
    ensures Size(p[i]) == 1
    ensures LineWords(p, i) == [Encode(BranchTo(AddrOf(p, i), AddrOf(p, FindEnd(p, i + 1, 0)), false))]
  {
    hide Encode, BranchTo, AddrOf, FindEnd;
  }

  lemma TableKept(p: Program, i: nat, labels: map<nat, nat>)
    requires i < |p| && TableOk(p, i, labels) && !p[i].Label?
    ensures TableOk(p, i + 1, labels)
  {
    hide AddrOf;
    forall n: nat
      ensures Target(p, n) != i
    {
    }
  }

  /** BEGIN inverts the skip before it and leaves room for a jump. */
  lemma AppendsBegin(p: Program, i: nat, w: Work, w': Work)
    requires i < |p| && Knows(p, i, w) && p[i].Begin? && BlocksFine(p) && CondsFine(p)
    requires w.skip < |w.code|
    requires w' == w.(code := w.code[w.skip := InvertedWord(w.code[w.skip])] + [0xC000], blocks := w.blocks + [|w.code|],
                      pending := false)
    ensures Knows(p, i + 1, w')
  {
    hide Code, AddrOf, LineWords, Size, Referred, Encode, IfOp, Invert, BranchTo, InvertedWord, Target, LabelAddr;
    SizeGrows(p, i);
    SizeGrows(p, i - 1);
    BeginWords(p, i);
    TableKept(p, i, w.labels);
    IfThenWords(p, i - 1);
    InvertsWord(p[i - 1].cond);
    assert Code(p)[AddrOf(p, i - 1) + 0] == LineWords(p, i - 1)[0];
    assert Code(p)[AddrOf(p, i) + 0] == LineWords(p, i)[0];
    forall k | 0 <= k < |w'.blocks|
      ensures BlockOk(p, i + 1, |w'.code|, w'.blocks[k], |w'.blocks| - 1 - k)
    {
      if k < |w.blocks| {
        assert BlockOk(p, i, |w.code|, w.blocks[k], |w.blocks| - 1 - k);
      }
    }
    forall k | 0 <= k < |w'.fixups|
      ensures FixupOk(p, |w'.code|, w'.fixups[k])
    {
      assert FixupOk(p, |w.code|, w.fixups[k]);
    }
    forall a | 0 <= a < |w'.code| && !Referred(w'.fixups, a) && a !in w'.blocks && !Awaits(p, i + 1, a)
      ensures w'.code[a] == Code(p)[a]
    {
      InAppended(w.blocks, |w.code|, a);
    }
  }

  /** END patches the jump of the innermost open block to come here. */
  lemma PatchesEnd(p: Program, i: nat, w: Work, w': Work)
    requires i < |p| && Knows(p, i, w) && p[i].End? && |w.blocks| > 0
    requires var n := |w.blocks| - 1; var b := w.blocks[n];
      b < |w.code|
      && w' == w.(code := w.code[b := Encode(BranchTo(b, |w.code|, false))], blocks := w.blocks[..n])
    ensures Knows(p, i + 1, w')
  {
    hide Code, AddrOf, Referred, Encode, IfOp, BranchTo, Target, LabelAddr;
    var n := |w.blocks| - 1;
    var b := w.blocks[n];
    SizeGrows(p, i);
    TableKept(p, i, w.labels);
    assert BlockOk(p, i, |w.code|, b, 0);
    forall k | 0 <= k < n
      ensures BlockOk(p, i + 1, |w'.code|, w'.blocks[k], n - 1 - k)
    {
      assert BlockOk(p, i, |w.code|, w.blocks[k], n - k);
    }
    forall a | 0 <= a < |w'.code| && !Referred(w'.fixups, a) && a !in w'.blocks && !Awaits(p, i + 1, a)
      ensures w'.code[a] == Code(p)[a]
    {
      InAppended(w.blocks[..n], b, a);
      assert w.blocks[..n] + [b] == w.blocks;
    }
  }

  lemma SkipsEnd(p: Program, i: nat, w: Work)
    requires i < |p| && Knows(p, i, w) && p[i].End? && w.blocks == []
    ensures Knows(p, i + 1, w)
  {
    hide Code, Referred, Encode, IfOp, BranchTo, Target, LabelAddr, FixupOk;
    SizeGrows(p, i);
    TableKept(p, i, w.labels);
  }

  lemma TableGains(p: Program, i: nat, labels: map<nat, nat>)
    requires i < |p| && TableOk(p, i, labels) && p[i].Label? && LabelsFine(p)
    ensures TableOk(p, i + 1, labels[p[i].name := AddrOf(p, i)])
  {
    hide FindLabel, AddrOf;
    assert Target(p, p[i].name) == i;
    forall n: nat
      ensures Target(p, n) == i ==> n == p[i].name
    {
      TargetIs(p, n, i);
    }
  }

  lemma BlocksPass(p: Program, i: nat, w: Work, w': Work)
    requires i < |p| && BlocksOk(p, i, w) && !p[i].Begin? && !p[i].End?
    requires w'.blocks == w.blocks && |w.code| <= |w'.code| <= |Code(p)|
    ensures BlocksOk(p, i + 1, w')
  {
    hide Code, Encode, BranchTo, AddrOf;
    forall k | 0 <= k < |w.blocks|
      ensures BlockOk(p, i + 1, |w'.code|, w'.blocks[k], |w.blocks| - 1 - k)
    {
      assert BlockOk(p, i, |w.code|, w.blocks[k], |w.blocks| - 1 - k);
    }
  }

  lemma DefinesLabel(p: Program, i: nat, w: Work, w': Work)
    requires i < |p| && Knows(p, i, w) && p[i].Label? && LabelsFine(p)
    requires w' == w.(labels := w.labels[p[i].name := |w.code|])
    ensures Knows(p, i + 1, w')
  {
    hide Code, Referred, Encode, IfOp, FixupOk, BlocksOk, TableOk, LabelsFine;
    SizeGrows(p, i);
    BlocksPass(p, i, w, w');
    TableGains(p, i, w.labels);
  }

  lemma TargetIs(p: Program, n: nat, i: nat)
    requires i < |p| && p[i].Label?
    ensures Target(p, n) == i ==> p[i] == Label(n)
  {
  }

  lemma Begins(p: Program)
    ensures Knows(p, 0, Work([], map[], [], [], false, 0))
  {
  }

  /** At the end no block is open, and the fixups are all that is missing. */
  lemma AllClosed(p: Program, w: Work)
    requires Knows(p, |p|, w)
    ensures w.blocks == [] && |w.code| == |Code(p)|
  {
    hide Code, Referred, Encode, IfOp, BranchTo, FixupOk, FixupsOk, TableOk;
    NoneOpen(p, w);
    LayoutPrefix(p, |p|, |p|);
    CodeSize(p);
  }

  lemma NotAtEnd(p: Program, size: nat, b: nat, d: nat)
    ensures !BlockOk(p, |p|, size, b, d)
  {
    hide Code, Encode, BranchTo;
  }

  lemma NoneOpen(p: Program, w: Work)
    requires BlocksOk(p, |p|, w)
    ensures w.blocks == []
  {
    hide Code, Encode, BranchTo;
    hide BlockOk;
    if |w.blocks| > 0 {
      NotAtEnd(p, |w.code|, w.blocks[0], |w.blocks| - 1);
    }
  }

  lemma CodeSize(p: Program)
    ensures |Code(p)| == AddrOf(p, |p|)
  {
  }

  /** A branch whose label is in the table. */
  lemma KnownBranch(p: Program, i: nat, w: Work, a: nat, name: nat, isCall: bool)
    requires i <= |p| && Knows(p, i, w) && name in w.labels
    ensures BranchWord(w.labels[name] - (a + 1), isCall) == Encode(BranchTo(a, LabelAddr(p, name), isCall))
  {
    hide Encode, BranchTo, BranchWord, WordsOk, FixupsOk, BlocksOk, PendingOk, LabelAddr, Target;
    BranchWordIs(a, LabelAddr(p, name), isCall);
  }

  /** The operator of a line that is neither a label nor a literal nor part of the control structure. */
  function PlainOp(l: Line): Op {
    match l
    case Move(src, dst) => MoveOp(src, dst)
    case LoadPad(k, right, dst) => var (g, s) := RegAddr(dst); PadMove(k, right, true, s, g)
    case StorePad(src, k, right) => var (g, s) := RegAddr(src); PadMove(k, right, false, s, g)
    case ReadBits(n, rev, dst, w) => Field(false, DataId(dst), rev, n, CountCode(w))
    case WriteBits(n, src, w) => Field(true, DataId(src), false, n, CountCode(w))
    case CountBy(w, n) => Isa.Count(CountCode(w), n)
    case Xch(a, b) => Exchange(a, b)
    case MonitorX => Monitor
    case HaltLine => Halt
    case Exit => Isa.Move(11, 2, 4, 2)
    case SkipWhen(c) => SkipOp(c)
    case _ => Nop
  }

  predicate IsPlain(l: Line) {
    !l.Label? && !l.Lit? && !l.StoreF? && !l.GoTo? && !l.CallTo? && !l.IfGoTo? && !l.IfThen? && !l.Begin? && !l.End?
  }

  lemma PlainWords(p: Program, i: nat)
    requires i < |p| && IsPlain(p[i])
    ensures LineWords(p, i) == [Encode(PlainOp(p[i]))]
  {
    hide Encode, MoveOp, DataId, RegAddr, IfOp, SkipOp;
  }

  lemma BranchWords(p: Program, i: nat, name: nat, isCall: bool)
    requires i < |p| && p[i] == (if isCall then CallTo(name) else GoTo(name))
    ensures Size(p[i]) == 1 && LineWords(p, i) == [Encode(BranchTo(AddrOf(p, i), LabelAddr(p, name), isCall))]
  {
    hide Encode, BranchTo, AddrOf, LabelAddr;
  }

  lemma IfGoToWords(p: Program, i: nat, c: Cond, name: nat)
    requires i < |p| && p[i] == IfGoTo(c, name)
    ensures Size(p[i]) == 2
    ensures LineWords(p, i) == [Encode(IfOp(c)), Encode(BranchTo(AddrOf(p, i) + 1, LabelAddr(p, name), false))]
  {
    hide Encode, BranchTo, AddrOf, LabelAddr, IfOp;
  }

  lemma CodeLength(p: Program, i: nat, w: Work)
    requires i <= |p| && Knows(p, i, w)
    ensures |w.code| == AddrOf(p, i)
  {
    hide Code, FixupsOk, BlocksOk, TableOk, PendingOk, Referred, Awaits;
  }

  /** The innermost open block has its jump in the code. */
  lemma OpenBlock(p: Program, i: nat, w: Work)
    requires i <= |p| && Knows(p, i, w) && |w.blocks| > 0
    ensures w.blocks[|w.blocks| - 1] < |w.code|
  {
    hide Code, FixupsOk, TableOk, PendingOk, WordsOk, Encode, BranchTo;
    assert BlockOk(p, i, |w.code|, w.blocks[|w.blocks| - 1], 0);
  }

  lemma ShortJump(p: Program, i: nat, w: Work)
    requires i <= |p| && Knows(p, i, w) && Fits(p)
    ensures |w.code| < 0x1000
  {
    hide Code, FixupsOk, BlocksOk, TableOk, PendingOk, Referred, Awaits;
  }

  lemma ForwardWord(disp: nat)
    requires disp <= 0xFFF
    ensures BranchWord(disp, false) == 0xC000 + disp
  {
  }

  lemma SkipBefore(p: Program, i: nat, w: Work)
    requires i < |p| && Knows(p, i, w) && p[i].Begin? && BlocksFine(p)
    ensures w.skip < |w.code|
  {
    hide Code, FixupsOk, TableOk, BlocksOk, WordsOk, Encode, IfOp, AddrOf;
  }

  lemma TargetsDefined(p: Program, i: nat)
    requires i < |p| && Accepted(p)
    ensures p[i].GoTo? || p[i].CallTo? || p[i].IfGoTo? ==> Target(p, p[i].target) < |p|
    ensures LabelsFine(p) && BlocksFine(p) && CondsFine(p) && Fits(p)
  {
    hide Target, BlocksFine, CondsFine, Fits;
  }

  // ----- resolving the forward references -----

  predicate Resolvable(w: Work) {
    forall k :: 0 <= k < |w.fixups| ==> w.fixups[k].addr < |w.code| && w.fixups[k].name in w.labels
  }

  /** The words after the first n fixups. */
  function Patched(w: Work, n: nat): (c: seq<nat>)
    requires n <= |w.fixups| && Resolvable(w)
    ensures |c| == |w.code|
  {
    if n == 0 then w.code
    else
      var f := w.fixups[n - 1];
      Patched(w, n - 1)[f.addr := BranchWord(w.labels[f.name] - (f.addr + 1), f.isCall)]
  }

  /** Fixups change no other word. */
  lemma {:induction false} PatchedKeeps(w: Work, n: nat, a: nat)
    requires n <= |w.fixups| && Resolvable(w) && a < |w.code| && !Referred(w.fixups, a)
    ensures Patched(w, n)[a] == w.code[a]
  {
    hide BranchWord;
    if n > 0 {
      PatchedKeeps(w, n - 1, a);
    }
  }

  /** Every fixup makes its word final. */
  lemma {:induction false} PatchedFinal(p: Program, w: Work, n: nat, k: nat)
    requires Knows(p, |p|, w) && Resolvable(w) && k < n <= |w.fixups|
    ensures w.fixups[k].addr < |Code(p)| && Patched(w, n)[w.fixups[k].addr] == Code(p)[w.fixups[k].addr]
  {
    hide BranchWord, Code, WordsOk, BlocksOk, TableOk, PendingOk, Resolvable, Encode, BranchTo, LabelAddr, Target;
    var f := w.fixups[n - 1];
    assert FixupOk(p, |w.code|, f) && FixupOk(p, |w.code|, w.fixups[k]);
    hide Knows;
    if f.addr == w.fixups[k].addr {
      FixupResolves(p, w, f);
    } else {
      PatchedFinal(p, w, n - 1, k);
    }
  }

  lemma FixupResolves(p: Program, w: Work, f: Fixup)
    requires Knows(p, |p|, w) && FixupOk(p, |w.code|, f)
    ensures f.name in w.labels && BranchWord(w.labels[f.name] - (f.addr + 1), f.isCall) == Code(p)[f.addr]
  {
    hide BranchWord, Code, Encode, BranchTo, LabelAddr, Target, WordsOk, BlocksOk, PendingOk, FixupsOk;
    assert f.name in w.labels;
    KnownBranch(p, |p|, w, f.addr, f.name, f.isCall);
  }

  lemma AllResolvable(p: Program, w: Work)
    requires Knows(p, |p|, w)
    ensures Resolvable(w)
  {
    hide BranchWord, Code, WordsOk, BlocksOk, PendingOk, Encode, BranchTo, LabelAddr, Target;
    forall k | 0 <= k < |w.fixups|
      ensures w.fixups[k].addr < |w.code| && w.fixups[k].name in w.labels
    {
      assert FixupOk(p, |w.code|, w.fixups[k]);
    }
  }

  lemma AllPatched(p: Program, w: Work)
    requires Knows(p, |p|, w) && Resolvable(w) && w.blocks == [] && |w.code| == |Code(p)|
    ensures Patched(w, |w.fixups|) == Code(p)
  {
    hide Code, BranchWord, FixupsOk, BlocksOk, PendingOk, TableOk, Patched, Resolvable;
    var n := |w.fixups|;
    forall a | 0 <= a < |w.code|
      ensures Patched(w, n)[a] == Code(p)[a]
    {
      if Referred(w.fixups, a) {
        var k :| 0 <= k < n && w.fixups[k].addr == a;
        PatchedFinal(p, w, n, k);
      } else {
        PatchedKeeps(w, n, a);
      }
    }
  }

  // ----- the file -----

  /** Each word as two octets, the high one first. */
  function Octets(w: seq<nat>): (o: seq<Octet>)
    ensures |o| == 2 * |w|
  {
    if w == [] then [] else Octets(w[..|w| - 1]) + [w[|w| - 1] / 256 % 256, w[|w| - 1] % 256]
  }

  class Assembler {
    var code: seq<nat>
    var labels: map<nat, nat>
    var fixups: seq<Fixup>
    var blocks: seq<nat>
    var pending: bool
    var skip: nat

    constructor ()
      ensures View() == Work([], map[], [], [], false, 0)
    {
      code, labels, fixups, blocks, pending, skip := [], map[], [], [], false, 0;
    }

    ghost function View(): Work
      reads this
    {
      Work(code, labels, fixups, blocks, pending, skip)
    }

    method Emit(w: nat)
      modifies this`code
      ensures View() == old(View()).(code := old(code) + [w])
    {
      code := code + [w];
    }

    /** One or two words into select 2 of the group, and a move when that is not the target. */
    method EmitLiteral(v: Word, dst: Name)
      modifies this`code
      ensures View() == old(View()).(code := old(code) + LitWords(v, dst))
    {
      hide Encode, MoveOp;
      var (g, s) := RegAddr(dst);
      if v <= 0xFF {
        Emit(Encode(Lit8(g, v)));
      } else {
        Emit(Encode(Lit24(g, v / K16)));
        Emit(v % K16);
      }
      if s != 2 {
        Emit(Encode(MoveOp(T, dst)));
      }
    }

    /** A branch to a label: its word when the label is known, otherwise a placeholder and a fixup. */
    method EmitBranch(name: nat, isCall: bool)
      modifies this`code, this`fixups
      ensures View() == if name in labels then
          old(View()).(code := old(code) + [BranchWord(labels[name] - (|old(code)| + 1), isCall)])
        else old(View()).(code := old(code) + [0], fixups := old(fixups) + [Fixup(|old(code)|, name, isCall)])
    {
      if name in labels {
        Emit(BranchWord(labels[name] - (|code| + 1), isCall));
      } else {
        fixups := fixups + [Fixup(|code|, name, isCall)];
        Emit(0);
      }
    }

    method AssembleBranch(ghost p: Program, ghost i: nat, name: nat, isCall: bool)
      requires i < |p| && Knows(p, i, View())
      requires p[i] == (if isCall then CallTo(name) else GoTo(name)) && Target(p, name) < |p|
      modifies this
      ensures Knows(p, i + 1, View())
    {
      hide Knows, BranchWord, BranchTo, Encode, LabelAddr, AddrOf, LineWords, Target;
      ghost var w := View();
      BranchWords(p, i, name, isCall);
      CodeLength(p, i, w);
      pending := false;
      if name in labels {
        KnownBranch(p, i, w, |code|, name, isCall);
      }
      EmitBranch(name, isCall);
      if name in labels {
        Appends(p, i, w, View());
      } else {
        AppendsReference(p, i, w, View(), Fixup(|w.code|, name, isCall));
      }
    }

    method AssembleIfGoTo(ghost p: Program, ghost i: nat, c: Cond, name: nat)
      requires i < |p| && Knows(p, i, View()) && p[i] == IfGoTo(c, name) && Target(p, name) < |p|
      modifies this
      ensures Knows(p, i + 1, View())
    {
      hide Knows, BranchWord, BranchTo, Encode, LabelAddr, AddrOf, LineWords, Target, IfOp;
      ghost var w := View();
      IfGoToWords(p, i, c, name);
      CodeLength(p, i, w);
      pending := false;
      if name in labels {
        KnownBranch(p, i, w, |code| + 1, name, false);
      }
      Emit(Encode(IfOp(c)));
      EmitBranch(name, false);
      if name in labels {
        Appends(p, i, w, View());
      } else {
        AppendsReference(p, i, w, View(), Fixup(|w.code| + 1, name, false));
      }
    }

    /** Patches the jump of the innermost open block; a displacement too large for its field would be cut. */
    method AssembleEnd(ghost p: Program, ghost i: nat)
      requires i < |p| && Knows(p, i, View()) && p[i].End? && Fits(p)
      modifies this`code, this`blocks
      ensures Knows(p, i + 1, View())
      ensures if old(blocks) == [] then View() == old(View())
        else
          var n, end := |old(blocks)| - 1, |old(code)|; var b := old(blocks)[n];
          b < end && View() == old(View()).(code := old(code)[b := Encode(BranchTo(b, end, false))],
                                            blocks := old(blocks)[..n])
    {
      hide Knows, BranchWord, BranchTo, Encode, Fits;
      ghost var w := View();
      if |blocks| == 0 {
        SkipsEnd(p, i, w);
        return;
      }
      var n := |blocks| - 1;
      var b := blocks[n];
      OpenBlock(p, i, w);
      BranchWordIs(b, |code|, false);
      ShortJump(p, i, w);
      var disp := |code| - (b + 1);
      if disp > 0xFFF {
        disp := 0xFFF;
      }
      ForwardWord(disp);
      code := code[b := 0xC000 + disp];
      blocks := blocks[..n];
      PatchesEnd(p, i, w, View());
    }

    /** Inverts the skip before it and leaves room for a jump. */
    method AssembleBegin(ghost p: Program, ghost i: nat)
      requires i < |p| && Knows(p, i, View()) && p[i].Begin? && BlocksFine(p) && CondsFine(p)
      modifies this`code, this`blocks, this`pending
      ensures Knows(p, i + 1, View()) && old(skip) < |old(code)|
      ensures View() == old(View()).(code := old(code)[old(skip) := InvertedWord(old(code)[old(skip)])] + [0xC000],
                                     blocks := old(blocks) + [|old(code)|], pending := false)
    {
      ghost var w := View();
      SkipBefore(p, i, w);
      hide Knows, InvertedWord, BlocksFine, CondsFine;
      var addr := |code|;
      code := code[skip := InvertedWord(code[skip])];
      Emit(0xC000);
      blocks := blocks + [addr];
      pending := false;
      AppendsBegin(p, i, w, View());
    }

    /** Assembles one line. */
    method AssembleLine(ghost p: Program, ghost i: nat, l: Line)
      requires i < |p| && l == p[i] && Knows(p, i, View()) && Accepted(p)
      modifies this
      ensures Knows(p, i + 1, View())
    {
      hide Knows, Encode, PlainOp, IfOp, LitWords, AddrOf, LineWords, BranchTo, Target, BlocksFine, CondsFine, Fits;
      ghost var w := View();
      TargetsDefined(p, i);
      match l {
        case Label(n) =>
          labels := labels[n := |code|];
          DefinesLabel(p, i, w, View());
        case GoTo(n) => AssembleBranch(p, i, n, false);
        case CallTo(n) => AssembleBranch(p, i, n, true);
        case IfGoTo(c, n) => AssembleIfGoTo(p, i, c, n);
        case IfThen(c) =>
          skip := |code|;
          Emit(Encode(IfOp(c)));
          pending := true;
          AppendsSkip(p, i, w, View());
        case Begin => AssembleBegin(p, i);
        case End => AssembleEnd(p, i);
        case _ => AssembleWords(p, i, l);
      }
    }

    /** A line whose words depend on nothing else. */
    method AssembleWords(ghost p: Program, ghost i: nat, l: Line)
      requires i < |p| && l == p[i] && Knows(p, i, View()) && (IsPlain(l) || l.Lit? || l.StoreF?)
      modifies this
      ensures Knows(p, i + 1, View())
    {
      hide Knows, Encode, PlainOp, LitWords, AddrOf;
      ghost var w := View();
      pending := false;
      if l.Lit? {
        EmitLiteral(l.v, l.dst);
      } else if l.StoreF? {
        Emit(Encode(PadMove(l.pad, false, false, 2, 8)));
        Emit(Encode(PadMove(l.pad, true, false, 2, 9)));
      } else {
        PlainWords(p, i);
        Emit(Encode(PlainOp(l)));
      }
      assert View().code == w.code + LineWords(p, i);
      Appends(p, i, w, View());
    }

    /** Pass 2: fills in the forward references. */
    method ResolveFixups()
      requires Resolvable(View())
      modifies this`code
      ensures code == Patched(old(View()), |old(View()).fixups|)
    {
      hide BranchWord;
      var i := 0;
      while i < |fixups|
        invariant 0 <= i <= |fixups| && code == Patched(old(View()), i)
      {
        var f := fixups[i];
        code := code[f.addr := BranchWord(labels[f.name] - (f.addr + 1), f.isCall)];
        i := i + 1;
      }
    }

    /** Writes the words to a file, high octet first. */
    method WriteBinary() returns (out: seq<Octet>)
      ensures out == Octets(code)
    {
      out := [];
      var i := 0;
      while i < |code|
        invariant 0 <= i <= |code| && out == Octets(code[..i])
      {
        out := out + [code[i] / 256 % 256];
        out := out + [code[i] % 256];
        i := i + 1;
        assert code[..i][..i - 1] == code[..i - 1];
      }
      assert code[..i] == code;
    }

    /** Assembles a program of unique labels and matched blocks into its finished words. */
    method Assemble(p: Program)
      requires View() == Work([], map[], [], [], false, 0) && Accepted(p)
      modifies this
      ensures code == Code(p)
    {
      hide *;
      Begins(p);
      var i := 0;
      while i < |p|
        invariant 0 <= i <= |p| && Knows(p, i, View())
      {
        AssembleLine(p, i, p[i]);
        i := i + 1;
      }
      AllClosed(p, View());
      AllResolvable(p, View());
      AllPatched(p, View());
      ResolveFixups();
    }
  }
}
