/** The device controls and the I/O bus as objects updated in place. */
module Devices {
  import opened Bits
  import opened BitMemory
  import opened IoBus
  import opened Registers
  import opened Storage

  /** Buffer addresses of a descriptor are 24-bit. */
  predicate Addressed(d: Descriptor) {
    d.ria < 0x100_0000 && d.a < 0x100_0000 && d.b < 0x100_0000
  }

  /** A device control: the null device, or the EMV host with its cards. */
  class Device {
    var kind: Kind
    const delay: nat
    var desc: Descriptor
    var clock: nat
    var completeAt: nat
    var pending: bool
    var request: bool

    constructor (k: Kind, delayCycles: nat)
      ensures Value() == Control(k, delayCycles, Descriptor(0, 0, 0, 0), 0, 0, false, false)
    {
      kind, delay, desc := k, delayCycles, Descriptor(0, 0, 0, 0);
      clock, completeAt, pending, request := 0, 0, false, false;
    }

    ghost function Value(): Control
      reads this
    {
      Control(kind, delay, desc, clock, completeAt, pending, request)
    }

    ghost predicate Ready()
      reads this
    {
      Addressed(desc)
    }

    method StartIo(d: Descriptor)
      modifies this
      ensures Value() == IoBus.StartIo(old(Value()), d)
    {
      desc, pending, completeAt := d, true, clock + delay;
    }

    method ClearServiceRequest()
      modifies this
      ensures Value() == old(Value()).(request := false)
    {
      request := false;
    }

    /** One clock tick. */
    method Tick(cycle: nat, mem: Memory)
      requires Ready() && mem.data.Length <= 0x20_0000
      modifies this, mem.data
      ensures (Value(), mem.Contents()) == TickControl(old(Value()), cycle, old(mem.Contents())) && Ready()
    {
      hide ReadField, WriteField, mem.Contents, WriteCard, ClearOctets, WriteEnd;
      clock := cycle;
      if !pending || cycle < completeAt {
        return;
      }
      pending := false;
      if kind.EmvHost? && IsRead(desc) {
        if kind.phase == 0 {
          mem.WriteBits(desc.a + 32, 12, 0x531, true);
          kind := kind.(phase := 1);
        } else {
          Serve(mem);
        }
      }
      mem.WriteBits(desc.ria + 23, 24, 0x80_0000, true);
      request := true;
    }

    /** Answers a read with the next card, or /EN when there are none left. */
    method Serve(mem: Memory)
      requires Ready() && mem.data.Length <= 0x20_0000 && kind.EmvHost? && IsRead(desc) && kind.phase != 0
      modifies this`kind, mem.data
      ensures (kind, mem.Contents()) == Respond(old(kind), desc, old(mem.Contents())) && Ready()
    {
      hide ReadField, WriteField, mem.Contents;
      ghost var m := mem.Contents();
      var buf := desc.a;
      var dataStart := buf + 0xA0;
      var i := 0;
      while i < 20
        invariant 0 <= i <= 20 && kind == old(kind) && mem.Contents() == ClearOctets(m, buf, i)
      {
        mem.WriteBits(buf + 8 * i, 8, 0, false);
        i := i + 1;
      }
      mem.WriteBits(buf + 32, 8, 1, false);
      if kind.next < |kind.cards| {
        ghost var m1 := mem.Contents();
        var card := kind.cards[kind.next];
        i := 0;
        while i < |card| && dataStart + 8 * i < desc.b
          invariant 0 <= i <= |card| && kind == old(kind) && mem.Contents() == WriteCard(m1, dataStart, desc.b, card, i)
        {
          mem.WriteBits(dataStart + 8 * i, 8, card[i], false);
          i := i + 1;
        }
        CardEnds(m1, dataStart, desc.b, card, i, |card|);
        kind := kind.(next := kind.next + 1);
      } else {
        mem.WriteBits(dataStart, 8, 0x61, false);
        mem.WriteBits(dataStart + 8, 8, 0xC5, false);
        mem.WriteBits(dataStart + 16, 8, 0xD5, false);
      }
    }
  }

  /** Past the end of the buffer nothing more is written. */
  lemma {:induction false} CardEnds(m: Mem, a: nat, b: nat, card: seq<nat>, i: nat, n: nat)
    requires i <= n <= |card| && (i < |card| ==> a + 8 * i >= b)
    ensures WriteCard(m, a, b, card, n) == WriteCard(m, a, b, card, i)
  {
    hide WriteField;
    if i < n {
      CardEnds(m, a, b, card, i, n - 1);
    }
  }

  /** The device in a slot, if any. */
  ghost function SlotOf(d: Device?): Option<Control>
    reads d
  {
    if d == null then None else Some(d.Value())
  }

  /** The bus: fourteen slots, each empty or holding a device of its own. */
  class BusUnit {
    const controls: array<Device?>
    var locked: bool

    constructor ()
      ensures fresh(controls) && Valid() && !locked && Slots() == NO_DEVICES
    {
      controls := new Device?[14](_ => null);
      locked := false;
    }

    ghost predicate Valid()
      reads this, controls, controls[..]
    {
      && controls.Length == 14
      && (forall i, j :: 0 <= i < j < 14 && controls[i] != null ==> controls[i] != controls[j])
      && forall i :: 0 <= i < 14 && controls[i] != null ==> controls[i].Ready()
    }

    ghost function Slots(): IoBus.Slots
      requires Valid()
      reads this, controls, controls[..]
    {
      seq(14, i requires 0 <= i < 14 reads this, controls, controls[..] => SlotOf(controls[i]))
    }

    /** Advances every device by one cycle, in slot order. */
    method Tick(cycle: nat, mem: Memory)
      requires Valid() && mem.data.Length <= 0x20_0000
      modifies controls[..], mem.data
      ensures Valid() && (Slots(), mem.Contents()) == TickSlots(old(Slots()), cycle, old(mem.Contents()), 14)
    {
      var i := 0;
      while i < 14
        invariant 0 <= i <= 14 && Valid()
        invariant (Slots(), mem.Contents()) == TickSlots(old(Slots()), cycle, old(mem.Contents()), i)
      {
        if controls[i] != null {
          ghost var before := Slots();
          controls[i].Tick(cycle, mem);
          assert Slots() == before[i := SlotOf(controls[i])];
        }
        i := i + 1;
      }
    }

    /** The lowest port with a service request, or 14. */
    method FindRequestingPort() returns (port: nat)
      requires Valid()
      ensures port == RequestingPort(Slots(), 0)
    {
      port := 0;
      while port < 14
        invariant 0 <= port <= 14 && RequestingPort(Slots(), 0) == RequestingPort(Slots(), port)
      {
        assert Requests(Slots()[port]) == (controls[port] != null && controls[port].request);
        if controls[port] != null && controls[port].request {
          return;
        }
        port := port + 1;
      }
    }

    /** Starts an operation on the device in a slot, if there is one. */
    method DispatchTo(port: nat, d: Descriptor)
      requires Valid() && Addressed(d)
      modifies controls[..]
      ensures Valid() && Slots() == DispatchWrite(old(Slots()), port, d)
    {
      if port < 14 && controls[port] != null {
        controls[port].StartIo(d);
      }
      assert Slots() == DispatchWrite(old(Slots()), port, d);
    }

    /** Result address of the operation on a port that requests service. */
    method CompletedRia(port: nat) returns (ria: nat)
      requires Valid() && port < 14 && Requests(Slots()[port])
      ensures ria == Slots()[port].value.desc.ria
    {
      ria := controls[port].desc.ria;
    }

    method ClearAt(port: nat)
      requires Valid() && port < 14
      modifies controls[..]
      ensures Valid() && Slots() == ClearRequest(old(Slots()), port)
    {
      if controls[port] != null {
        controls[port].ClearServiceRequest();
      }
      assert Slots() == ClearRequest(old(Slots()), port);
    }
  }
}
