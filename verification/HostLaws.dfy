/** The EMV host over any history of starts, acknowledgements and ticks: the n-th read it completes gets the n-th
    answer, the answer reaches the buffer, and writes pass without effect. */
module HostLaws {
  import opened Bits
  import opened BitMemory
  import opened IoBus
  import opened Isa
  import opened Registers
  import opened Machine
  import opened IoLaws

  /** What happens to a control: a descriptor is started, its request is acknowledged, or the clock ticks while
      memory is as given. */
  datatype Event = Start(desc: Descriptor) | Clear | Tick(cycle: nat, m: Mem)

  function Apply(c: Control, e: Event): Control {
    match e
    case Start(d) => StartIo(c, d)
    case Clear => c.(request := false)
    case Tick(cycle, m) => TickControl(c, cycle, m).0
  }

  function After(c: Control, es: seq<Event>): Control {
    if es == [] then c else Apply(After(c, es[..|es| - 1]), es[|es| - 1])
  }

  // ----- what is in flight -----

  /** One past the last start, 0 if there is none. */
  function LastStart(es: seq<Event>): (k: nat)
    ensures k <= |es| && (k > 0 ==> es[k - 1].Start?)
    ensures forall j :: k <= j < |es| ==> !es[j].Start?
  {
    if es == [] then 0
    else if es[|es| - 1].Start? then |es|
    else LastStart(es[..|es| - 1])
  }

  /** The cycle of the last tick. */
  function Clock(c: Control, es: seq<Event>): nat {
    if es == [] then c.clock
    else if es[|es| - 1].Tick? then es[|es| - 1].cycle
    else Clock(c, es[..|es| - 1])
  }

  /** Every tick from position k on comes before the limit. */
  predicate TicksBefore(es: seq<Event>, k: nat, limit: nat) {
    forall j :: k <= j < |es| && es[j].Tick? ==> es[j].cycle < limit
  }

  /** No tick since the last start has reached its completion cycle. */
  predicate Waiting(c: Control, es: seq<Event>) {
    var k := LastStart(es);
    k > 0 && TicksBefore(es, k, Clock(c, es[..k - 1]) + c.delay)
  }

  lemma TicksOn(es: seq<Event>, k: nat, limit: nat)
    requires k < |es|
    ensures var n := |es| - 1;
      TicksBefore(es, k, limit) <==> TicksBefore(es[..n], k, limit) && (es[n].Tick? ==> es[n].cycle < limit)
  {
    var n := |es| - 1;
    assert forall j :: k <= j < n ==> es[..n][j] == es[j];
  }

  lemma WaitsOn(c: Control, es: seq<Event>)
    requires es != [] && !es[|es| - 1].Start?
    ensures var n, k := |es| - 1, LastStart(es);
      && k == LastStart(es[..n]) && k <= n && (k > 0 ==> es[..n][..k - 1] == es[..k - 1] && es[..n][k - 1] == es[k - 1])
      && (Waiting(c, es) <==>
            Waiting(c, es[..n]) && (es[n].Tick? ==> es[n].cycle < Clock(c, es[..k - 1]) + c.delay))
  {
    hide Clock, TicksBefore;
    var n, k := |es| - 1, LastStart(es);
    assert k == LastStart(es[..n]);
    hide LastStart;
    if k > 0 {
      assert es[..n][..k - 1] == es[..k - 1];
      TicksOn(es, k, Clock(c, es[..k - 1]) + c.delay);
    }
  }

  lemma StartsAnew(c: Control, es: seq<Event>)
    requires es != [] && es[|es| - 1].Start?
    ensures LastStart(es) == |es| && Waiting(c, es)
  {
  }

  /** An operation is pending exactly from its start until a tick at least the delay later, and it is always the last
      one started: a start before completion replaces the descriptor and begins the delay anew. */
  lemma {:induction false} InFlight(c: Control, es: seq<Event>)
    requires !c.pending
    ensures var h, k := After(c, es), LastStart(es);
      && h.clock == Clock(c, es) && h.delay == c.delay
      && (h.pending <==> Waiting(c, es))
      && (k > 0 ==> h.desc == es[k - 1].desc && h.completeAt == Clock(c, es[..k - 1]) + c.delay)
  {
    hide Respond;
    if es != [] {
      var n := |es| - 1;
      InFlight(c, es[..n]);
      if es[n].Start? {
        StartsAnew(c, es);
      } else {
        WaitsOn(c, es);
      }
      hide Waiting, LastStart;
    }
  }

  // ----- descriptors -----

  /** The four words of a descriptor that devices use: the operation, where the result goes, and the buffer. */
  function WordsAt(m: Mem, l: nat): Descriptor {
    Descriptor(op := ReadField(m, l, 24, false), ria := ReadField(m, l + 24, 24, false),
               a := ReadField(m, l + 48, 24, false), b := ReadField(m, l + 72, 24, false))
  }

  lemma WordsAre(m: Mem, l: nat)
    ensures ReadDescriptor(m, l) == WordsAt(m, l)
  {
    hide ReadField;
  }

  /** Bit 22 of the operation word is the direction. */
  predicate Reading(d: Descriptor) {
    !Bit(d.op, 22)
  }

  lemma ShrTwo(v: nat)
    ensures Shr(v, 2) == v / 4
  {
    assert Shr(v, 2) == Shr(v / 2, 1) && Shr(v / 2, 1) == Shr(v / 2 / 2, 0);
  }

  lemma Quotients(v: nat)
    ensures v / 0x100 / 0x100 == v / 0x1_0000 && v / 0x1_0000 / 16 == v / 0x10_0000
    ensures v / 0x10_0000 / 4 == v / 0x40_0000
  {
  }

  lemma ShrTwentyTwo(v: nat)
    ensures Shr(v, 22) == v / 0x40_0000
  {
    hide *;
    Quotients(v);
    ShrEight(v);
    ShrAdd(v, 8, 8);
    ShrEight(v / 0x100);
    ShrAdd(v, 16, 4);
    ShrFour(v / 0x1_0000);
    ShrAdd(v, 20, 2);
    ShrTwo(v / 0x10_0000);
  }

  lemma ReadingIs(d: Descriptor)
    ensures IsRead(d) == Reading(d)
  {
    hide Shr, Bit;
    ShrTwentyTwo(d.op);
    ShiftedBit(d.op, 22, 0);
    BitUp(d.op / 0x40_0000, 0);
  }

  /** The port in nibble TE. */
  function PortNamed(s: State): nat {
    GetNib(s.r.t, 4)
  }

  // ----- the answers in order -----

  /** The tick completes the operation pending. */
  predicate Completes(c: Control, e: Event) {
    e.Tick? && c.pending && c.completeAt <= e.cycle
  }

  predicate CompletesRead(c: Control, e: Event) {
    Completes(c, e) && Reading(c.desc)
  }

  /** Number of reads completed. */
  function Reads(c: Control, es: seq<Event>): nat {
    if es == [] then 0
    else Reads(c, es[..|es| - 1]) + B(CompletesRead(After(c, es[..|es| - 1]), es[|es| - 1]))
  }

  datatype Answer = StartMLoad | Card(octets: seq<nat>) | EndOfCards

  /** The answer to the j-th read, counted from 0. */
  function NthAnswer(cards: seq<seq<nat>>, j: nat): Answer {
    if j == 0 then StartMLoad else if j <= |cards| then Card(cards[j - 1]) else EndOfCards
  }

  /** The host after it has answered j reads. */
  function HostAt(cards: seq<seq<nat>>, j: nat): Kind {
    if j == 0 then EmvHost(0, cards, 0) else EmvHost(1, cards, Least(j - 1, |cards|))
  }

  /** Whatever is started, acknowledged and ticked, the host's state is that of the number of reads it has completed:
      START-M-LOAD first, then each card once, in order; writes change nothing. */
  lemma {:induction false} ServesInOrder(c: Control, cards: seq<seq<nat>>, es: seq<Event>)
    requires c.kind == HostAt(cards, 0)
    ensures After(c, es).kind == HostAt(cards, Reads(c, es))
  {
    hide ClearOctets, WriteCard, WriteField, WriteEnd, IsRead, Reading;
    if es != [] {
      ServesInOrder(c, cards, es[..|es| - 1]);
      ReadingIs(After(c, es[..|es| - 1]).desc);
    }
  }

  // ----- what reaches memory -----

  /** A field that lies in memory, apart from the result word. */
  predicate Free(d: Descriptor, m: Mem, a: nat, n: nat) {
    a + n <= |m| && (d.ria + 24 <= a || a + n <= d.ria)
  }

  /** The preamble: a one as unit type, zeros otherwise. */
  predicate Preamble(d: Descriptor, m: Mem, m': Mem) {
    forall j: nat | j < 20 && Free(d, m, d.a + 8 * j, 8) ::
      ReadField(m', d.a + 8 * j, 8, false) == if j == 4 then 1 else 0
  }

  /** The octets of a card are in the buffer after the preamble, as many as begin before its end. */
  predicate InBuffer(octets: seq<nat>, d: Descriptor, m: Mem, m': Mem) {
    forall i: nat | i < |octets| && octets[i] < 256 && d.a + 0xA0 + 8 * i < d.b && Free(d, m, d.a + 0xA0 + 8 * i, 8) ::
      ReadField(m', d.a + 0xA0 + 8 * i, 8, false) == octets[i]
  }

  predicate Delivered(ans: Answer, d: Descriptor, m: Mem, m': Mem) {
    match ans
    case StartMLoad => Free(d, m, d.a + 21, 12) ==> ReadField(m', d.a + 32, 12, true) == 0x531
    case Card(octets) => Preamble(d, m, m') && InBuffer(octets, d, m, m')
    case EndOfCards =>
      Preamble(d, m, m') && (Free(d, m, d.a + 0xA0, 24) ==> ReadField(m', d.a + 0xA0, 24, false) == 0x61_C5D5)
  }

  /** Number of octets of a card that begin before the buffer's end. */
  function Taking(octets: seq<nat>, d: Descriptor): nat {
    Least(|octets|, if d.b <= d.a + 0xA0 then 0 else (d.b - d.a - 0xA0 + 7) / 8)
  }

  /** The bits an answer may change. */
  predicate Reaches(ans: Answer, d: Descriptor, k: nat) {
    match ans
    case StartMLoad => d.a + 21 <= k < d.a + 33
    case Card(octets) => d.a <= k < d.a + 0xA0 + 8 * Taking(octets, d)
    case EndOfCards => d.a <= k < d.a + 0xA0 + 24
  }

  predicate InResult(d: Descriptor, k: nat) {
    d.ria <= k < d.ria + 24
  }

  // ----- the loops of the host -----

  lemma {:induction false} OctetCleared(m: Mem, a: nat, n: nat, j: nat)
    requires j < n && a + 8 * j + 8 <= |m|
    ensures ReadField(ClearOctets(m, a, n), a + 8 * j, 8, false) == 0
  {
    hide ReadField, WriteField;
    Pow2Values();
    var m1 := ClearOctets(m, a, n - 1);
    if j == n - 1 {
      ReadBack(m1, a + 8 * j, 8, 0, false);
    } else {
      OctetCleared(m, a, n - 1, j);
      ReadDisjoint(m1, a + 8 * (n - 1), 8, 0, false, a + 8 * j, 8, false);
    }
  }

  lemma {:induction false} ClearFrame(m: Mem, a: nat, n: nat, k: nat)
    requires k < |m| && !(a <= k < a + 8 * n)
    ensures ClearOctets(m, a, n)[k] == m[k]
  {
    if n > 0 {
      ClearFrame(m, a, n - 1, k);
    }
  }

  /** Octet i of the card is in the buffer once it has been written. */
  lemma {:induction false} CardWritten(m: Mem, a: nat, b: nat, card: seq<nat>, n: nat, i: nat)
    requires i < n <= |card| && card[i] < 256 && a + 8 * i < b && a + 8 * i + 8 <= |m|
    ensures ReadField(WriteCard(m, a, b, card, n), a + 8 * i, 8, false) == card[i]
  {
    hide ReadField, WriteField;
    Pow2Values();
    var m1 := WriteCard(m, a, b, card, n - 1);
    if i == n - 1 {
      ReadBack(m1, a + 8 * i, 8, card[i], false);
    } else {
      CardWritten(m, a, b, card, n - 1, i);
      if a + 8 * (n - 1) < b {
        ReadDisjoint(m1, a + 8 * (n - 1), 8, card[n - 1], false, a + 8 * i, 8, false);
      }
    }
  }

  lemma {:induction false} CardFrame(m: Mem, a: nat, b: nat, card: seq<nat>, n: nat, k: nat)
    requires n <= |card| && k < |m|
    requires k < a || forall i :: 0 <= i < n && a + 8 * i < b ==> a + 8 * i + 8 <= k
    ensures WriteCard(m, a, b, card, n)[k] == m[k]
  {
    if n > 0 {
      CardFrame(m, a, b, card, n - 1, k);
    }
  }

  lemma EndWritten(m: Mem, a: nat)
    requires a + 24 <= |m|
    ensures ReadField(WriteEnd(m, a), a, 24, false) == 0x61_C5D5
  {
    hide ReadField, WriteField;
    Pow2Values();
    var m1 := WriteField(m, a, 8, 0x61, false);
    var m2 := WriteField(m1, a + 8, 8, 0xC5, false);
    var m3 := WriteField(m2, a + 16, 8, 0xD5, false);
    ReadBack(m, a, 8, 0x61, false);
    ReadDisjoint(m1, a + 8, 8, 0xC5, false, a, 8, false);
    ReadDisjoint(m2, a + 16, 8, 0xD5, false, a, 8, false);
    ReadBack(m1, a + 8, 8, 0xC5, false);
    ReadDisjoint(m2, a + 16, 8, 0xD5, false, a + 8, 8, false);
    ReadBack(m2, a + 16, 8, 0xD5, false);
    ReadConcat(m3, a, 8, 8);
    ReadConcat(m3, a, 16, 8);
  }

  lemma EndFrame(m: Mem, a: nat, k: nat)
    requires k < |m| && !(a <= k < a + 24)
    ensures WriteEnd(m, a)[k] == m[k]
  {
  }

  /** Memory after the preamble has been written. */
  function Prefaced(m: Mem, d: Descriptor): (m': Mem)
    ensures |m'| == |m|
  {
    WriteField(ClearOctets(m, d.a, 20), d.a + 32, 8, 1, false)
  }

  lemma PrefaceOctet(m: Mem, d: Descriptor, j: nat)
    requires j < 20 && d.a + 8 * j + 8 <= |m|
    ensures ReadField(Prefaced(m, d), d.a + 8 * j, 8, false) == if j == 4 then 1 else 0
  {
    hide ReadField, WriteField, ClearOctets;
    Pow2Values();
    OctetCleared(m, d.a, 20, j);
    if j == 4 {
      ReadBack(ClearOctets(m, d.a, 20), d.a + 32, 8, 1, false);
    } else {
      ReadDisjoint(ClearOctets(m, d.a, 20), d.a + 32, 8, 1, false, d.a + 8 * j, 8, false);
    }
  }

  lemma PrefaceFrame(m: Mem, d: Descriptor, k: nat)
    requires k < |m| && !(d.a <= k < d.a + 0xA0)
    ensures Prefaced(m, d)[k] == m[k]
  {
    hide ClearOctets;
    ClearFrame(m, d.a, 20, k);
  }

  // ----- delivery -----

  /** Memory after an answer, before the result word. */
  function Written(ans: Answer, d: Descriptor, m: Mem): (m': Mem)
    ensures |m'| == |m|
  {
    match ans
    case StartMLoad => WriteField(m, d.a + 32, 12, 0x531, true)
    case Card(octets) => WriteCard(Prefaced(m, d), d.a + 0xA0, d.b, octets, |octets|)
    case EndOfCards => WriteEnd(Prefaced(m, d), d.a + 0xA0)
  }

  function ResultWritten(d: Descriptor, m: Mem): (m': Mem)
    ensures |m'| == |m|
  {
    WriteField(m, d.ria + 23, 24, 0x80_0000, true)
  }

  lemma RespondIs(cards: seq<seq<nat>>, j: nat, d: Descriptor, m: Mem)
    requires Reading(d)
    ensures Respond(HostAt(cards, j), d, m) == (HostAt(cards, j + 1), Written(NthAnswer(cards, j), d, m))
  {
    ReadingIs(d);
    hide ClearOctets, WriteCard, WriteField, WriteEnd, IsRead, Reading;
  }

  lemma CompletionIs(c: Control, cycle: nat, m: Mem)
    requires Completes(c, Tick(cycle, m))
    ensures var t := TickControl(c, cycle, m);
      && t.1 == ResultWritten(c.desc, Respond(c.kind, c.desc, m).1)
      && t.0.request && !t.0.pending && t.0.kind == Respond(c.kind, c.desc, m).0 && t.0.desc == c.desc
  {
    hide Respond, WriteField;
  }

  /** A field apart from the result word keeps its value. */
  lemma ResultMisses(d: Descriptor, m: Mem, a: nat, n: nat)
    requires d.ria + 24 <= a || a + n <= d.ria
    ensures ReadField(ResultWritten(d, m), a, n, false) == ReadField(m, a, n, false)
    ensures n > 0 ==> ReadField(ResultWritten(d, m), a + n - 1, n, true) == ReadField(m, a + n - 1, n, true)
  {
    hide ReadField, WriteField;
    ReadDisjoint(m, d.ria + 23, 24, 0x80_0000, true, a, n, false);
    if n > 0 {
      ReadDisjoint(m, d.ria + 23, 24, 0x80_0000, true, a + n - 1, n, true);
    }
  }

  lemma ResultFrame(d: Descriptor, m: Mem, k: nat)
    requires k < |m| && !InResult(d, k)
    ensures ResultWritten(d, m)[k] == m[k]
  {
  }

  lemma SameField(m: Mem, m': Mem, a: nat, n: nat)
    requires |m| == |m'| && a + n <= |m| && forall k :: a <= k < a + n ==> m[k] == m'[k]
    ensures ReadField(m, a, n, false) == ReadField(m', a, n, false)
  {
    ReadFrame(m, m', a, n, false);
  }

  lemma CardKeepsPreface(m: Mem, d: Descriptor, octets: seq<nat>, j: nat)
    requires j < 20 && d.a + 8 * j + 8 <= |m|
    ensures ReadField(WriteCard(m, d.a + 0xA0, d.b, octets, |octets|), d.a + 8 * j, 8, false)
      == ReadField(m, d.a + 8 * j, 8, false)
  {
    hide ReadField, WriteCard;
    var m' := WriteCard(m, d.a + 0xA0, d.b, octets, |octets|);
    forall k | d.a + 8 * j <= k < d.a + 8 * j + 8 ensures m[k] == m'[k] {
      CardFrame(m, d.a + 0xA0, d.b, octets, |octets|, k);
    }
    SameField(m, m', d.a + 8 * j, 8);
  }

  lemma EndKeepsPreface(m: Mem, d: Descriptor, j: nat)
    requires j < 20 && d.a + 8 * j + 8 <= |m|
    ensures ReadField(WriteEnd(m, d.a + 0xA0), d.a + 8 * j, 8, false) == ReadField(m, d.a + 8 * j, 8, false)
  {
    hide ReadField, WriteEnd;
    var m' := WriteEnd(m, d.a + 0xA0);
    forall k | d.a + 8 * j <= k < d.a + 8 * j + 8 ensures m[k] == m'[k] {
      EndFrame(m, d.a + 0xA0, k);
    }
    SameField(m, m', d.a + 8 * j, 8);
  }

  lemma DeliversPreamble(ans: Answer, d: Descriptor, m: Mem)
    requires !ans.StartMLoad?
    ensures Preamble(d, m, ResultWritten(d, Written(ans, d, m)))
  {
    hide ReadField, WriteCard, WriteEnd, Prefaced, ResultWritten;
    var m1 := Prefaced(m, d);
    forall j: nat | j < 20 && Free(d, m, d.a + 8 * j, 8)
      ensures ReadField(ResultWritten(d, Written(ans, d, m)), d.a + 8 * j, 8, false) == if j == 4 then 1 else 0
    {
      PrefaceOctet(m, d, j);
      ResultMisses(d, Written(ans, d, m), d.a + 8 * j, 8);
      match ans
      case Card(octets) => CardKeepsPreface(m1, d, octets, j);
      case EndOfCards => EndKeepsPreface(m1, d, j);
    }
  }

  lemma DeliversCard(octets: seq<nat>, d: Descriptor, m: Mem)
    ensures InBuffer(octets, d, m, ResultWritten(d, Written(Card(octets), d, m)))
  {
    hide ReadField, WriteCard, Prefaced, ResultWritten;
    var m1 := Prefaced(m, d);
    var m2 := Written(Card(octets), d, m);
    forall i: nat | i < |octets| && octets[i] < 256 && d.a + 0xA0 + 8 * i < d.b && Free(d, m, d.a + 0xA0 + 8 * i, 8)
      ensures ReadField(ResultWritten(d, m2), d.a + 0xA0 + 8 * i, 8, false) == octets[i]
    {
      CardWritten(m1, d.a + 0xA0, d.b, octets, |octets|, i);
      ResultMisses(d, m2, d.a + 0xA0 + 8 * i, 8);
    }
  }

  /** Each answer reaches the buffer and survives the result word wherever the two are apart. */
  lemma Delivers(ans: Answer, d: Descriptor, m: Mem)
    ensures Delivered(ans, d, m, ResultWritten(d, Written(ans, d, m)))
  {
    hide ReadField, WriteField, WriteCard, WriteEnd, ResultWritten, Preamble, InBuffer;
    match ans
    case StartMLoad =>
      if Free(d, m, d.a + 21, 12) {
        assert Pow2(12) == 0x1000;
        ReadBack(m, d.a + 32, 12, 0x531, true);
        ResultMisses(d, Written(ans, d, m), d.a + 21, 12);
      }
    case Card(octets) =>
      DeliversPreamble(ans, d, m);
      DeliversCard(octets, d, m);
    case EndOfCards =>
      DeliversPreamble(ans, d, m);
      if Free(d, m, d.a + 0xA0, 24) {
        EndWritten(Prefaced(m, d), d.a + 0xA0);
        ResultMisses(d, Written(ans, d, m), d.a + 0xA0, 24);
      }
  }

  /** Nothing else in memory changes. */
  lemma AnswerFrame(ans: Answer, d: Descriptor, m: Mem, k: nat)
    requires k < |m| && !Reaches(ans, d, k) && !InResult(d, k)
    ensures ResultWritten(d, Written(ans, d, m))[k] == m[k]
  {
    hide WriteCard, WriteEnd, Prefaced, ResultWritten, InResult;
    ResultFrame(d, Written(ans, d, m), k);
    match ans
    case StartMLoad =>
    case Card(octets) =>
      PrefaceFrame(m, d, k);
      CardFrame(Prefaced(m, d), d.a + 0xA0, d.b, octets, |octets|, k);
    case EndOfCards =>
      PrefaceFrame(m, d, k);
      EndFrame(Prefaced(m, d), d.a + 0xA0, k);
  }

  /** Memory m' is m with the answer delivered, the result word stored and nothing else changed. */
  predicate Answered(ans: Answer, d: Descriptor, m: Mem, m': Mem) {
    && |m'| == |m| && Delivered(ans, d, m, m')
    && (d.ria + 24 <= |m| ==> ReadField(m', d.ria + 23, 24, true) == 0x80_0000)
    && forall k :: 0 <= k < |m| && !Reaches(ans, d, k) && !InResult(d, k) ==> m'[k] == m[k]
  }

  lemma ResultReads(d: Descriptor, m: Mem)
    requires d.ria + 24 <= |m|
    ensures ReadField(ResultWritten(d, m), d.ria + 23, 24, true) == 0x80_0000
  {
    Pow2Values();
    hide ReadField, WriteField;
    ReadBack(m, d.ria + 23, 24, 0x80_0000, true);
  }

  /** After any history the read that completes next is answered with the answer whose turn it is: it is in memory
      when the service request comes up. */
  lemma AnswersInTurn(c: Control, cards: seq<seq<nat>>, es: seq<Event>, cycle: nat, m: Mem)
    requires c.kind == HostAt(cards, 0) && CompletesRead(After(c, es), Tick(cycle, m))
    ensures var h := After(c, es); var t := TickControl(h, cycle, m);
      Answered(NthAnswer(cards, Reads(c, es)), h.desc, m, t.1) && t.0.request && !t.0.pending
  {
    var h, j := After(c, es), Reads(c, es);
    var d, ans := h.desc, NthAnswer(cards, j);
    assert Reading(d) && Completes(h, Tick(cycle, m));
    ServesInOrder(c, cards, es);
    hide After, Reads, NthAnswer, HostAt, Reading, Completes, Respond, TickControl;
    CompletionIs(h, cycle, m);
    RespondIs(cards, j, d, m);
    hide Written, ResultWritten, Delivered, Reaches, InResult, ReadField;
    Delivers(ans, d, m);
    if d.ria + 24 <= |m| {
      ResultReads(d, Written(ans, d, m));
    }
    forall k | 0 <= k < |m| && !Reaches(ans, d, k) && !InResult(d, k)
      ensures ResultWritten(d, Written(ans, d, m))[k] == m[k]
    {
      AnswerFrame(ans, d, m, k);
    }
  }

  /** A completed write leaves the host as it was and stores its result word only. */
  lemma WritesPass(c: Control, cycle: nat, m: Mem)
    requires Completes(c, Tick(cycle, m)) && !Reading(c.desc)
    ensures var t := TickControl(c, cycle, m);
      && t.0.kind == c.kind && t.0.request && !t.0.pending
      && forall k :: 0 <= k < |m| && !InResult(c.desc, k) ==> t.1[k] == m[k]
  {
    CompletionIs(c, cycle, m);
    ReadingIs(c.desc);
    hide TickControl, ResultWritten, InResult, Reading, IsRead;
    forall k | 0 <= k < |m| && !InResult(c.desc, k) ensures ResultWritten(c.desc, m)[k] == m[k] {
      ResultFrame(c.desc, m, k);
    }
  }

  // ----- on the machine -----

  /** What one step of the machine does to the device in slot p. */
  function StepEvents(s: State, p: nat): seq<Event>
    requires p < 14
  {
    if s.r.halted then []
    else
      [Tick(s.cycles, MemoryAt(s, p))] +
      match NextOp(s)
      case Dispatch(1) => if PortNamed(s) == p then [Start(WordsAt(Poll(s).m, s.r.l))] else []
      case Dispatch(2) => if RequestingPort(Polled(s), 0) == p then [Clear] else []
      case _ => []
  }

  function Events(s: State, n: nat, p: nat): seq<Event>
    requires p < 14
  {
    if n == 0 then [] else Events(s, n - 1, p) + StepEvents(Run(s, n - 1), p)
  }

  lemma {:induction false} AfterAll(c: Control, es: seq<Event>, fs: seq<Event>)
    ensures After(c, es + fs) == After(After(c, es), fs)
  {
    hide Apply;
    if fs == [] {
      assert es + fs == es;
    } else {
      var n := |fs| - 1;
      AfterAll(c, es, fs[..n]);
      assert (es + fs)[..|es + fs| - 1] == es + fs[..n];
    }
  }

  lemma AfterTwo(c: Control, e: Event, f: Event)
    ensures After(c, [e]) == Apply(c, e) == After(c, [e] + []) && After(c, [e] + [f]) == Apply(Apply(c, e), f)
  {
    hide Apply;
    assert [e][..0] == [] && ([e] + [f])[..1] == [e] && [e] + [] == [e];
    assert After(c, []) == c;
  }

  /** The operator's part of a step, on slot p. */
  function OpEvents(op: Op, s: State, p: nat): seq<Event>
    requires p < 14
  {
    match op
    case Dispatch(1) => if PortNamed(s) == p then [Start(WordsAt(s.m, s.r.l))] else []
    case Dispatch(2) => if RequestingPort(s.bus.slots, 0) == p then [Clear] else []
    case _ => []
  }

  lemma OpOnSlot(op: Op, s: State, p: nat, c: Control)
    requires p < 14 && s.bus.slots[p] == Some(c)
    ensures Exec(op, s).bus.slots[p] == Some(After(c, OpEvents(op, s, p)))
  {
    if op == Dispatch(2) {
      DispatchIs(s);
      Acknowledges(s);
      hide Exec, ExecDispatch, RequestingPort;
      AfterTwo(c, Clear, Clear);
    } else if op == Dispatch(1) {
      WordsAre(s.m, s.r.l);
      hide ReadDescriptor, WordsAt;
      AfterTwo(c, Start(WordsAt(s.m, s.r.l)), Clear);
    } else if op.Dispatch? {
      hide ReadDescriptor, RequestingPort;
    } else {
      hide Exec;
      OthersKeepBus(op, s);
    }
  }

  lemma StepOnSlot(s: State, p: nat, c: Control)
    requires p < 14 && s.bus.slots[p] == Some(c)
    ensures Step(s).bus.slots[p] == Some(After(c, StepEvents(s, p)))
  {
    if !s.r.halted {
      SplitEvents(s, p);
      hide *;
      StepIs(s);
      FetchedIs(s);
      PolledSlots(s);
      PolledIs(s);
      TickEach(s, 14, p);
      Ticked(c, s.cycles, MemoryAt(s, p));
      OpOnSlot(NextOp(s), Fetched(s), p, TickControl(c, s.cycles, MemoryAt(s, p)).0);
      AfterAll(c, [Tick(s.cycles, MemoryAt(s, p))], OpEvents(NextOp(s), Fetched(s), p));
    }
  }

  lemma Ticked(c: Control, cycle: nat, m: Mem)
    ensures After(c, [Tick(cycle, m)]) == TickControl(c, cycle, m).0
  {
    hide TickControl;
    AfterTwo(c, Tick(cycle, m), Clear);
  }

  lemma SplitEvents(s: State, p: nat)
    requires p < 14 && !s.r.halted
    ensures StepEvents(s, p) == [Tick(s.cycles, MemoryAt(s, p))] + OpEvents(NextOp(s), Fetched(s), p)
  {
    FetchedIs(s);
    PolledSlots(s);
    hide Fetched, Poll, Polled, NextOp, WordsAt, RequestingPort, MemoryAt;
  }

  /** The device in slot p of a running machine goes through exactly these events. */
  lemma {:induction false} SlotFollows(s: State, n: nat, p: nat, c: Control)
    requires p < 14 && s.bus.slots[p] == Some(c)
    ensures Run(s, n).bus.slots[p] == Some(After(c, Events(s, n, p)))
  {
    hide Step, StepEvents, Apply;
    if n > 0 {
      SlotFollows(s, n - 1, p, c);
      var c1 := After(c, Events(s, n - 1, p));
      StepOnSlot(Run(s, n - 1), p, c1);
      RunAdd(s, n - 1, 1);
      assert Run(Run(s, n - 1), 1) == Step(Run(s, n - 1));
      AfterAll(c, Events(s, n - 1, p), StepEvents(Run(s, n - 1), p));
    }
  }

  lemma {:induction false} LaterIdle(s: State, n: nat, p: nat)
    requires p < n <= 14 && forall q :: p < q < 14 ==> !Due(s.bus.slots[q], s.cycles)
    ensures MemoryAt(s, n) == MemoryAt(s, p + 1)
  {
    hide Respond;
    if n > p + 1 {
      LaterIdle(s, n - 1, p);
      TickEach(s, n - 1, n - 1);
      assert !Due(s.bus.slots[n - 1], s.cycles);
    }
  }

  lemma TickMemory(s: State, p: nat, c: Control)
    requires p < 14 && s.bus.slots[p] == Some(c)
    ensures MemoryAt(s, p + 1) == TickControl(c, s.cycles, MemoryAt(s, p)).1
  {
    TickEach(s, p, p);
    hide TickControl;
  }

  lemma PollMemory(s: State)
    ensures Poll(s).m == MemoryAt(s, 14)
  {
    hide TickSlots, AnyRequest, BusStatus, SetBusInterrupt;
  }

  /** On a running machine: whenever the host in slot p completes a read, its tick puts the answer whose turn it is,
      counted over the whole run, into memory and the port requests service. Unless a device in a later slot completes
      in the same tick, which could write over it, the next operator finds exactly that memory. */
  lemma HostAnswers(s: State, n: nat, p: nat, c: Control, cards: seq<seq<nat>>)
    requires p < 14 && s.bus.slots[p] == Some(c) && c.kind == HostAt(cards, 0)
    requires var u := Run(s, n); Due(u.bus.slots[p], u.cycles) && Reading(u.bus.slots[p].value.desc)
    ensures var u := Run(s, n); var d := u.bus.slots[p].value.desc;
      && Answered(NthAnswer(cards, Reads(c, Events(s, n, p))), d, MemoryAt(u, p), MemoryAt(u, p + 1))
      && Requests(Polled(u)[p])
      && ((forall q :: p < q < 14 ==> !Due(u.bus.slots[q], u.cycles)) ==> Poll(u).m == MemoryAt(u, p + 1))
  {
    var u, es := Run(s, n), Events(s, n, p);
    var h := After(c, es);
    SlotFollows(s, n, p, c);
    assert u.bus.slots[p] == Some(h);
    PolledEach(u, p);
    hide Run, Events, After, Reads, Answered, NthAnswer, Reading, HostAt, Poll, Polled, MemoryAt;
    assert CompletesRead(h, Tick(u.cycles, MemoryAt(u, p)));
    hide Due, CompletesRead;
    AnswersInTurn(c, cards, es, u.cycles, MemoryAt(u, p));
    TickMemory(u, p, h);
    PollMemory(u);
    if forall q :: p < q < 14 ==> !Due(u.bus.slots[q], u.cycles) {
      LaterIdle(u, 14, p);
    }
  }

  // ----- from the descriptor in memory to the answer -----

  /** The next step starts an operation on port p. */
  predicate StartsPort(s: State, p: nat) {
    !s.r.halted && NextOp(s) == Dispatch(1) && PortNamed(s) == p
  }

  /** DISPATCH WRITE starts the named device on the descriptor whose words stand at L, to complete after its delay. */
  lemma DispatchStarts(s: State, p: nat, c: Control)
    requires p < 14 && s.bus.slots[p] == Some(c) && StartsPort(s, p)
    ensures Step(s).bus.slots[p].Some?
    ensures var d := Step(s).bus.slots[p].value; var m := Poll(s).m;
      && d.pending && d.completeAt == s.cycles + c.delay
      && d.desc.op == ReadField(m, s.r.l, 24, false) && d.desc.ria == ReadField(m, s.r.l + 24, 24, false)
      && d.desc.a == ReadField(m, s.r.l + 48, 24, false) && d.desc.b == ReadField(m, s.r.l + 72, 24, false)
  {
    StepOnSlot(s, p, c);
    var tick, start := Tick(s.cycles, MemoryAt(s, p)), Start(WordsAt(Poll(s).m, s.r.l));
    assert StepEvents(s, p) == [tick] + [start];
    AfterTwo(c, tick, start);
    hide Step, Poll, Respond, ReadField, NextOp, MemoryAt, StepEvents, After, PortNamed;
  }

  /** A step that does not start port p leaves its descriptor. */
  lemma StepKeepsDescriptor(s: State, p: nat, c: Control)
    requires p < 14 && s.bus.slots[p] == Some(c) && !StartsPort(s, p)
    ensures Step(s).bus.slots[p].Some? && Step(s).bus.slots[p].value.desc == c.desc
  {
    hide *;
    StepOnSlot(s, p, c);
    EventsShape(s, p);
    NoStartKeeps(c, s.cycles, MemoryAt(s, p));
  }

  lemma EventsShape(s: State, p: nat)
    requires p < 14 && !StartsPort(s, p)
    ensures var tick := Tick(s.cycles, MemoryAt(s, p)); var es := StepEvents(s, p);
      es == [] || es == [tick] + [] || es == [tick] + [Clear]
  {
    hide NextOp, MemoryAt, PortNamed, Poll, Polled, WordsAt, RequestingPort;
  }

  lemma NoStartKeeps(c: Control, cycle: nat, m: Mem)
    ensures var tick := Tick(cycle, m);
      After(c, []) == c && After(c, [tick] + []).desc == c.desc && After(c, [tick] + [Clear]).desc == c.desc
  {
    AfterTwo(c, Tick(cycle, m), Clear);
    hide Respond;
  }

  /** So does a run that starts it nowhere. */
  lemma {:induction false} RunKeepsDescriptor(s: State, n: nat, p: nat, c: Control)
    requires p < 14 && s.bus.slots[p] == Some(c) && forall k: nat :: k < n ==> !StartsPort(Run(s, k), p)
    ensures Run(s, n).bus.slots[p].Some? && Run(s, n).bus.slots[p].value.desc == c.desc
  {
    hide Step, StartsPort;
    if n > 0 {
      RunKeepsDescriptor(s, n - 1, p, c);
      StepKeepsDescriptor(Run(s, n - 1), p, Run(s, n - 1).bus.slots[p].value);
      RunAdd(s, n - 1, 1);
      assert Run(Run(s, n - 1), 1) == Step(Run(s, n - 1));
    }
  }

  /** After a DISPATCH WRITE to port p and n more steps that start it no further, its descriptor is still the words that
      stood at L. */
  lemma InFlightOnMachine(s: State, n: nat, p: nat, c: Control)
    requires p < 14 && s.bus.slots[p] == Some(c) && StartsPort(s, p)
    requires forall k: nat :: k < n ==> !StartsPort(Run(Step(s), k), p)
    ensures Run(s, n + 1).bus.slots[p].Some?
    ensures Run(s, n + 1).bus.slots[p].value.desc == WordsAt(Poll(s).m, s.r.l)
  {
    hide Step, StartsPort, Poll, ReadField;
    DispatchStarts(s, p, c);
    RunKeepsDescriptor(Step(s), n, p, Step(s).bus.slots[p].value);
  }

  /** From DISPATCH WRITE to the answer: when the read started at s completes, the answer whose turn it is stands in the
      buffer, and the result word at the address, that the descriptor's words in memory gave. */
  lemma DispatchedReadAnswered(s: State, n: nat, p: nat, c: Control, cards: seq<seq<nat>>)
    requires p < 14 && s.bus.slots[p] == Some(c) && c.kind == HostAt(cards, 0) && StartsPort(s, p)
    requires forall k: nat :: k < n ==> !StartsPort(Run(Step(s), k), p)
    requires var u := Run(s, n + 1); Due(u.bus.slots[p], u.cycles) && !Bit(ReadField(Poll(s).m, s.r.l, 24, false), 22)
    ensures var u, m, l := Run(s, n + 1), Poll(s).m, s.r.l;
      && Answered(NthAnswer(cards, Reads(c, Events(s, n + 1, p))),
                  Descriptor(op := ReadField(m, l, 24, false), ria := ReadField(m, l + 24, 24, false),
                             a := ReadField(m, l + 48, 24, false), b := ReadField(m, l + 72, 24, false)),
                  MemoryAt(u, p), MemoryAt(u, p + 1))
      && Requests(Polled(u)[p])
  {
    hide *;
    InFlightOnMachine(s, n, p, c);
    WordsMean(Poll(s).m, s.r.l);
    HostAnswers(s, n + 1, p, c, cards);
  }

  /** From DISPATCH WRITE to its acknowledgement: the READ AND CLEAR that takes port p names it in T, and L is the last
      bit of the result word that the descriptor's second word in memory addressed. */
  lemma DispatchAcknowledged(s: State, n: nat, p: nat, c: Control)
    requires p < 14 && s.bus.slots[p] == Some(c) && StartsPort(s, p)
    requires forall k: nat :: k < n ==> !StartsPort(Run(Step(s), k), p)
    requires Takes(Run(s, n + 1), p)
    ensures var t := Step(Run(s, n + 1));
      t.r.t == p * 0x10_0000 && t.r.l == (ReadField(Poll(s).m, s.r.l + 24, 24, false) + 23) % 0x100_0000
  {
    hide *;
    InFlightOnMachine(s, n, p, c);
    var u := Run(s, n + 1);
    TakesMeans(u, p);
    LowestFirst(Polled(u), 0);
    AcknowledgesLowest(u);
    PolledDescriptor(u, p);
    WordsMean(Poll(s).m, s.r.l);
  }

  lemma WordsMean(m: Mem, l: nat)
    ensures WordsAt(m, l) == Descriptor(op := ReadField(m, l, 24, false), ria := ReadField(m, l + 24, 24, false),
                                        a := ReadField(m, l + 48, 24, false), b := ReadField(m, l + 72, 24, false))
    ensures Reading(WordsAt(m, l)) == !Bit(ReadField(m, l, 24, false), 22)
  {
    hide ReadField, Bit;
  }

  lemma TakesMeans(s: State, p: nat)
    requires Takes(s, p)
    ensures !s.r.halted && NextOp(s) == Dispatch(2) && RequestingPort(Polled(s), 0) == p
  {
    hide NextOp, Polled, RequestingPort;
  }

  /** Ticking keeps descriptors. */
  lemma PolledDescriptor(s: State, p: nat)
    requires p < 14 && s.bus.slots[p].Some?
    ensures Polled(s)[p].Some? && Polled(s)[p].value.desc == s.bus.slots[p].value.desc
  {
    PolledIs(s);
    TickEach(s, 14, p);
    hide Poll, TickSlots, Respond, Polled;
  }
}
