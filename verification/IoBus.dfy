/** The polled I/O bus: up to fourteen device controls that start on a descriptor, finish on a
    later clock tick, write a result word to memory and raise a service request. */
module IoBus {
  import opened Bits
  import opened BitMemory

  datatype Option<T> = None | Some(value: T)

  const MAX_CONTROLS: nat := 14

  /** The descriptor words the devices use. */
  datatype Descriptor = Descriptor(op: nat, ria: nat, a: nat, b: nat)

  function ReadDescriptor(m: Mem, addr: nat): Descriptor {
    Descriptor(ReadField(m, addr, 24, false), ReadField(m, addr + 24, 24, false),
               ReadField(m, addr + 48, 24, false), ReadField(m, addr + 72, 24, false))
  }

  /** Bit 22 of the operation word distinguishes a write from a read. */
  predicate IsRead(d: Descriptor) {
    d.op / 0x40_0000 % 2 == 0
  }

  /** What a control does beyond the common start/tick protocol: the null device transfers no data;
      the EMV host holds the protocol phase and the cards still to be served. */
  datatype Kind = NullDevice | EmvHost(phase: nat, cards: seq<seq<nat>>, next: nat)

  datatype Control = Control(kind: Kind, delay: nat, desc: Descriptor, clock: nat, completeAt: nat,
                             pending: bool, request: bool)

  function StartIo(c: Control, d: Descriptor): Control {
    c.(desc := d, pending := true, completeAt := c.clock + c.delay)
  }

  // ----- EMV host responses -----

  const START_M_LOAD: nat := 0x531
  const PREAMBLE_BITS: nat := 0xA0

  function ClearOctets(m: Mem, a: nat, n: nat): (m': Mem)
    ensures |m'| == |m|
  {
    if n == 0 then m else WriteField(ClearOctets(m, a, n - 1), a + 8 * (n - 1), 8, 0, false)
  }

  /** The first n octets of a card at address a, stopping at the buffer end b. */
  function WriteCard(m: Mem, a: nat, b: nat, card: seq<nat>, n: nat): (m': Mem)
    requires n <= |card|
    ensures |m'| == |m|
  {
    if n == 0 then m
    else
      var m1 := WriteCard(m, a, b, card, n - 1);
      if a + 8 * (n - 1) < b then WriteField(m1, a + 8 * (n - 1), 8, card[n - 1], false) else m1
  }

  function WriteEnd(m: Mem, a: nat): (m': Mem)
    ensures |m'| == |m|
  {
    var m1 := WriteField(m, a, 8, 0x61, false);
    var m2 := WriteField(m1, a + 8, 8, 0xC5, false);
    WriteField(m2, a + 16, 8, 0xD5, false)
  }

  /** The host's answer to a read: its new state and the buffer contents. */
  function Respond(k: Kind, d: Descriptor, m: Mem): (r: (Kind, Mem))
    ensures |r.1| == |m|
  {
    match k
    case NullDevice => (k, m)
    case EmvHost(phase, cards, next) =>
      if !IsRead(d) then (k, m)
      else if phase == 0 then (EmvHost(1, cards, next), WriteField(m, d.a + 32, 12, START_M_LOAD, true))
      else
        var m1 := WriteField(ClearOctets(m, d.a, PREAMBLE_BITS / 8), d.a + 32, 8, 1, false);
        if next < |cards| then
          (EmvHost(phase, cards, next + 1), WriteCard(m1, d.a + PREAMBLE_BITS, d.b, cards[next], |cards[next]|))
        else (k, WriteEnd(m1, d.a + PREAMBLE_BITS))
  }

  /** One clock tick: a due operation answers, stores its result word in reverse at ria+23 down to
      ria, and requests service. */
  function TickControl(c: Control, cycle: nat, m: Mem): (r: (Control, Mem))
    ensures |r.1| == |m|
  {
    if !c.pending || cycle < c.completeAt then (c.(clock := cycle), m)
    else
      var (k, m1) := Respond(c.kind, c.desc, m);
      (c.(kind := k, clock := cycle, pending := false, request := true),
       WriteField(m1, c.desc.ria + 23, 24, 0x80_0000, true))
  }

  // ----- the bus -----

  type Slots = s: seq<Option<Control>> | |s| == 14 witness seq(14, _ => None)

  datatype Bus = Bus(slots: Slots, locked: bool)

  const NO_DEVICES: Slots := [None, None, None, None, None, None, None, None, None, None, None, None, None, None]

  predicate Requests(c: Option<Control>) {
    c.Some? && c.value.request
  }

  /** Ticks slots 0..n-1 in order, threading memory. */
  function TickSlots(s: Slots, cycle: nat, m: Mem, n: nat): (r: (Slots, Mem))
    requires n <= 14
    ensures |r.1| == |m|
  {
    if n == 0 then (s, m)
    else
      var (s1, m1) := TickSlots(s, cycle, m, n - 1);
      match s1[n - 1]
      case None => (s1, m1)
      case Some(c) => var (c1, m2) := TickControl(c, cycle, m1); (s1[n - 1 := Some(c1)], m2)
  }

  /** The lowest port at or above i that requests service, or 14. */
  function RequestingPort(s: Slots, i: nat): (p: nat)
    requires i <= 14
    ensures i <= p <= 14
    ensures p < 14 ==> Requests(s[p])
    ensures forall j :: i <= j < p ==> !Requests(s[j])
    decreases 14 - i
  {
    if i == 14 || Requests(s[i]) then i else RequestingPort(s, i + 1)
  }

  predicate AnyRequest(s: Slots) {
    RequestingPort(s, 0) < 14
  }

  /** Both devices report status 1 while they request service. */
  function BusStatus(s: Slots): nat {
    B(AnyRequest(s))
  }

  function ClearRequest(s: Slots, p: nat): Slots
    requires p < 14
  {
    match s[p]
    case None => s
    case Some(c) => s[p := Some(c.(request := false))]
  }

  function DispatchWrite(s: Slots, p: nat, d: Descriptor): Slots {
    if p < 14 && s[p].Some? then s[p := Some(StartIo(s[p].value, d))] else s
  }

  lemma {:induction false} TickNoDevices(cycle: nat, m: Mem, n: nat)
    requires n <= 14
    ensures TickSlots(NO_DEVICES, cycle, m, n) == (NO_DEVICES, m)
  {
    if n > 0 {
      TickNoDevices(cycle, m, n - 1);
    }
  }
}
