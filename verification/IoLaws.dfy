/** Service requests over runs of the machine: none is lost, and DISPATCH READ AND CLEAR drains them in port order. */
module IoLaws {
  import opened Bits
  import opened BitMemory
  import opened IoBus
  import opened Isa
  import opened Registers
  import opened Machine

  function Least(a: nat, b: nat): nat { if a < b then a else b }

  // ----- requesting ports -----

  /** The ports at or above i that request service, in ascending order. */
  function Ports(s: Slots, i: nat): (ports: seq<nat>)
    requires i <= 14
    ensures forall k :: 0 <= k < |ports| ==> i <= ports[k] < 14 && Requests(s[ports[k]])
    decreases 14 - i
  {
    if i == 14 then [] else if Requests(s[i]) then [i] + Ports(s, i + 1) else Ports(s, i + 1)
  }

  lemma {:induction false} LowestFirst(s: Slots, i: nat)
    requires i <= 14
    ensures RequestingPort(s, i) == if Ports(s, i) == [] then 14 else Ports(s, i)[0]
    decreases 14 - i
  {
    if i < 14 {
      LowestFirst(s, i + 1);
    }
  }

  lemma {:induction false} PortsElsewhere(s: Slots, p: nat, i: nat)
    requires p < i <= 14
    ensures Ports(ClearRequest(s, p), i) == Ports(s, i)
    decreases 14 - i
  {
    if i < 14 {
      PortsElsewhere(s, p, i + 1);
    }
  }

  /** Clearing the lowest request leaves the others. */
  lemma {:induction false} ClearsFirst(s: Slots, i: nat)
    requires i <= 14 && Ports(s, i) != []
    ensures Ports(ClearRequest(s, Ports(s, i)[0]), i) == Ports(s, i)[1..]
    decreases 14 - i
  {
    var p := Ports(s, i)[0];
    if Requests(s[i]) {
      PortsElsewhere(s, i, i + 1);
      assert !Requests(ClearRequest(s, i)[i]);
    } else {
      ClearsFirst(s, i + 1);
      assert ClearRequest(s, p)[i] == s[i];
    }
  }

  // ----- acknowledging a request -----

  function AcknowledgedRegs(r: Regs, s: Slots): Regs {
    var p := RequestingPort(s, 0);
    var r1 := r.(lat := r.lat.(cc := ClearBusInterrupt(r.lat.cc)));
    if p < 14 then r1.(l := (s[p].value.desc.ria + 23) % K24, t := p * 0x10_0000 % K24) else r1.(t := 1)
  }

  function AcknowledgedSlots(s: Slots): Slots {
    var p := RequestingPort(s, 0);
    if p < 14 then ClearRequest(s, p) else s
  }

  lemma Acknowledges(s: State)
    ensures ExecDispatch(s, 2)
      == s.(r := AcknowledgedRegs(s.r, s.bus.slots), bus := s.bus.(slots := AcknowledgedSlots(s.bus.slots)))
  {
    hide RequestingPort, ClearRequest;
  }

  lemma OneAcknowledged(s: State)
    ensures var t := ExecDispatch(s, 2); var ports := Ports(s.bus.slots, 0);
      && (ports == [] ==> t.bus == s.bus && t.r.t == 1)
      && (ports != [] ==>
            t.r.t == ports[0] * 0x10_0000 && t.r.l == (s.bus.slots[ports[0]].value.desc.ria + 23) % 0x100_0000
            && Ports(t.bus.slots, 0) == ports[1..] && t.bus.slots == ClearRequest(s.bus.slots, ports[0]))
      && t.r.lat.cc / 4 % 2 == 0
  {
    hide ExecDispatch, RequestingPort, Ports, ClearRequest, ClearBusInterrupt, SetBusInterrupt;
    Acknowledges(s);
    LowestFirst(s.bus.slots, 0);
    if Ports(s.bus.slots, 0) != [] {
      ClearsFirst(s.bus.slots, 0);
    }
    Cleared(s.r.lat.cc);
  }

  lemma Cleared(cc: Nib)
    ensures ClearBusInterrupt(cc) / 4 % 2 == 0 && SetBusInterrupt(cc) / 4 % 2 == 1
  {
  }

  // ----- the tick before each operator -----

  predicate Due(c: Option<Control>, cycle: nat) {
    c.Some? && c.value.pending && c.value.completeAt <= cycle
  }

  predicate NoneDue(s: Slots, cycle: nat) {
    forall p :: 0 <= p < 14 ==> !Due(s[p], cycle)
  }

  /** A control but for its clock and its request. */
  function Core(c: Option<Control>): Option<Control> {
    match c
    case None => None
    case Some(d) => Some(d.(clock := 0, request := false))
  }

  lemma {:induction false} TickIdle(s: Slots, cycle: nat, m: Mem, n: nat)
    requires n <= 14 && NoneDue(s, cycle)
    ensures TickSlots(s, cycle, m, n).1 == m
    ensures forall p :: 0 <= p < 14 ==> var t := TickSlots(s, cycle, m, n).0[p];
      Core(t) == Core(s[p]) && Requests(t) == Requests(s[p]) && (p >= n ==> t == s[p])
  {
    hide Respond;
    if n > 0 {
      TickIdle(s, cycle, m, n - 1);
      assert !Due(s[n - 1], cycle);
    }
  }

  /** Memory when the devices before slot p have ticked. */
  function MemoryAt(s: State, p: nat): Mem
    requires p <= 14
  {
    TickSlots(s.bus.slots, s.cycles, s.m, p).1
  }

  /** Each device is ticked once, in slot order. */
  lemma {:induction false} TickEach(s: State, n: nat, p: nat)
    requires n <= 14 && p < 14
    ensures TickSlots(s.bus.slots, s.cycles, s.m, n).0[p]
      == if p < n && s.bus.slots[p].Some? then Some(TickControl(s.bus.slots[p].value, s.cycles, MemoryAt(s, p)).0)
         else s.bus.slots[p]
  {
    hide TickControl;
    if n > 0 {
      TickEach(s, n - 1, p);
      TickEach(s, n - 1, n - 1);
    }
  }

  // ----- one step -----

  /** The operator the next step executes, the bus having been ticked first. */
  function NextOp(s: State): Op {
    Decode(NextWord(Poll(s)))
  }

  /** The slots as the next operator finds them. */
  function Polled(s: State): Slots {
    Poll(s).bus.slots
  }

  lemma PolledSlots(s: State)
    ensures Polled(s) == Poll(s).bus.slots
  {
  }

  lemma PolledIs(s: State)
    ensures Polled(s) == TickSlots(s.bus.slots, s.cycles, s.m, 14).0
    ensures Poll(s).r.lat.bicn == B(Ports(Polled(s), 0) != [])
    ensures Poll(s).r.lat.cc / 4 % 2 == if Ports(Polled(s), 0) != [] then 1 else s.r.lat.cc / 4 % 2
  {
    hide TickSlots, RequestingPort, Ports, SetBusInterrupt, ClearBusInterrupt;
    LowestFirst(Polled(s), 0);
    Cleared(s.r.lat.cc);
  }

  lemma PolledEach(s: State, p: nat)
    requires p < 14
    ensures Requests(Polled(s)[p]) <==> Requests(s.bus.slots[p]) || Due(s.bus.slots[p], s.cycles)
  {
    PolledIs(s);
    TickEach(s, 14, p);
    hide Poll, TickSlots, Respond;
  }

  lemma StepIs(s: State)
    requires !s.r.halted
    ensures Step(s) == Exec(NextOp(s), Fetched(s)).(cycles := s.cycles + Clocks(NextOp(s), Fetched(s).r))
  {
    hide Poll, NextWord, Advance, Exec, Clocks, Decode;
  }

  /** The state in which the next operator executes. */
  function Fetched(s: State): State {
    Advance(Poll(s), NextWord(Poll(s)))
  }

  lemma FetchedIs(s: State)
    ensures var p, a := Poll(s), Fetched(s);
      && a.bus == p.bus && a.m == p.m && a.cycles == s.cycles && a.r.mar == Forward(s.r.mar, 1)
      && a.r.halted == s.r.halted && !a.r.lat.pending && a.r.t == s.r.t && a.r.l == s.r.l
  {
    hide TickSlots, NextWord, Forward, AnyRequest, BusStatus;
  }

  lemma DispatchIs(s: State)
    ensures Exec(Dispatch(2), s) == ExecDispatch(s, 2) && Clocks(Dispatch(2), s.r) == 2
  {
    hide ExecDispatch;
  }

  /** One DISPATCH READ AND CLEAR, whatever the devices do meanwhile: it takes the lowest port that requests service
      after the tick, names it in T and its result word's last bit in L, and leaves exactly the other requests. */
  lemma AcknowledgesLowest(s: State)
    requires !s.r.halted && NextOp(s) == Dispatch(2)
    ensures var ports := Ports(Polled(s), 0); var t := Step(s);
      && t.r.lat.cc / 4 % 2 == 0 && !t.r.halted && !t.r.lat.pending && t.cycles == s.cycles + 2
      && t.m == Poll(s).m && t.r.mar == Forward(s.r.mar, 1)
      && (ports == [] ==> t.r.t == 1 && t.bus.slots == Polled(s))
      && (ports != [] ==>
            && t.r.t == ports[0] * 0x10_0000
            && t.r.l == (Polled(s)[ports[0]].value.desc.ria + 23) % 0x100_0000
            && Ports(t.bus.slots, 0) == ports[1..] && t.bus.slots == ClearRequest(Polled(s), ports[0]))
  {
    hide *;
    StepIs(s);
    var a := Fetched(s);
    FetchedIs(s);
    DispatchIs(a);
    Acknowledges(a);
    OneAcknowledged(a);
    AcknowledgedKeeps(a.r, a.bus.slots);
    PolledSlots(s);
  }

  lemma AcknowledgedKeeps(r: Regs, s: Slots)
    ensures var r' := AcknowledgedRegs(r, s);
      r'.halted == r.halted && r'.lat.pending == r.lat.pending && r'.mar == r.mar
  {
  }

  // ----- conservation -----

  lemma {:induction false} PortsAre(s: Slots, i: nat, p: nat)
    requires i <= 14 && p < 14
    ensures p in Ports(s, i) <==> i <= p && Requests(s[p])
    decreases 14 - i
  {
    if i < 14 {
      PortsAre(s, i + 1, p);
    }
  }

  /** The bus interrupt CC(1) and BICN come up before an operator exactly when some device requests service or its
      operation is due; nothing takes CC(1) down again but a dispatch. */
  lemma Reasserts(s: State)
    ensures var up := exists p :: 0 <= p < 14 && (Requests(s.bus.slots[p]) || Due(s.bus.slots[p], s.cycles));
      && Poll(s).r.lat.bicn == B(up)
      && Poll(s).r.lat.cc / 4 % 2 == if up then 1 else s.r.lat.cc / 4 % 2
  {
    hide *;
    PolledIs(s);
    forall p | 0 <= p < 14
      ensures p in Ports(Polled(s), 0) <==> Requests(s.bus.slots[p]) || Due(s.bus.slots[p], s.cycles)
    {
      PortsAre(Polled(s), 0, p);
      PolledEach(s, p);
    }
    if Ports(Polled(s), 0) != [] {
      assert Ports(Polled(s), 0)[0] in Ports(Polled(s), 0);
    }
  }

  /** Port p's request is taken by the next step. */
  predicate Takes(s: State, p: nat) {
    !s.r.halted && NextOp(s) == Dispatch(2) && RequestingPort(Polled(s), 0) == p
  }

  /** Port p raises a request in the next step: its operation is due and none is outstanding. */
  predicate Raises(s: State, p: nat)
    requires p < 14
  {
    !s.r.halted && Due(s.bus.slots[p], s.cycles) && !Requests(s.bus.slots[p])
  }

  function Taken(s: State, n: nat, p: nat): nat {
    if n == 0 then 0 else Taken(s, n - 1, p) + B(Takes(Run(s, n - 1), p))
  }

  function Raised(s: State, n: nat, p: nat): nat
    requires p < 14
  {
    if n == 0 then 0 else Raised(s, n - 1, p) + B(Raises(Run(s, n - 1), p))
  }

  /** Only DISPATCH touches the bus. */
  lemma OthersKeepBus(op: Op, s: State)
    requires !op.Dispatch?
    ensures Exec(op, s).bus == s.bus
  {
    hide ExecRegs, ExecField, WriteReg, FetchMicro;
    if op.Field? {
      FieldKeepsBus(s, op.write, op.reg, op.rev, op.len, op.cv);
    }
  }

  lemma FieldKeepsBus(s: State, write: bool, reg: nat, rev: bool, n: nat, cv: nat)
    ensures ExecField(s, write, reg, rev, n, cv).bus == s.bus
  {
    hide CountFaFl, ReadField, WriteField, FieldLength;
  }

  /** Of the dispatches, only READ AND CLEAR touches a request. */
  lemma OthersKeepRequests(variant: nat, s: State, p: nat)
    requires variant != 2 && p < 14
    ensures Requests(ExecDispatch(s, variant).bus.slots[p]) == Requests(s.bus.slots[p])
  {
    hide ReadDescriptor, SkipWord;
  }

  lemma ClearsOnly(s: Slots, q: nat, p: nat)
    requires q < 14 && p < 14
    ensures Requests(ClearRequest(s, q)[p]) <==> Requests(s[p]) && p != q
  {
  }

  lemma ExecRequests(op: Op, s: State, p: nat)
    requires p < 14
    ensures Requests(Exec(op, s).bus.slots[p])
      <==> Requests(s.bus.slots[p]) && !(op == Dispatch(2) && RequestingPort(s.bus.slots, 0) == p)
  {
    if op == Dispatch(2) {
      DispatchIs(s);
      Acknowledges(s);
      hide Exec, ExecDispatch, ClearRequest, RequestingPort;
      if RequestingPort(s.bus.slots, 0) < 14 {
        ClearsOnly(s.bus.slots, RequestingPort(s.bus.slots, 0), p);
      }
    } else if op.Dispatch? {
      assert Exec(op, s) == ExecDispatch(s, op.variant);
      hide *;
      OthersKeepRequests(op.variant, s, p);
    } else {
      hide *;
      OthersKeepBus(op, s);
    }
  }

  lemma StepLeaves(s: State, p: nat)
    requires p < 14 && !s.r.halted
    ensures Requests(Step(s).bus.slots[p])
      <==> Requests(Polled(s)[p]) && !(NextOp(s) == Dispatch(2) && RequestingPort(Polled(s), 0) == p)
  {
    hide *;
    StepIs(s);
    FetchedIs(s);
    ExecRequests(NextOp(s), Fetched(s), p);
    PolledSlots(s);
  }

  lemma StepRequests(s: State, p: nat)
    requires p < 14
    ensures B(Requests(s.bus.slots[p])) + B(Raises(s, p)) == B(Takes(s, p)) + B(Requests(Step(s).bus.slots[p]))
  {
    if s.r.halted {
      hide Requests, NextOp, Polled, Due;
    } else {
      StepLeaves(s, p);
      PolledEach(s, p);
      hide Step, Requests, NextOp, Polled, Due, RequestingPort;
      if RequestingPort(Polled(s), 0) == p {
        TakenRequests(s, p);
      }
    }
  }

  lemma TakenRequests(s: State, p: nat)
    requires p < 14 && RequestingPort(Polled(s), 0) == p
    ensures Requests(Polled(s)[p])
  {
  }

  /** No request is lost and none is acknowledged twice: in every run of the machine, whatever it executes, the
      requests a port had and raised are those acknowledged and the one still outstanding. */
  lemma {:induction false} RequestsConserved(s: State, n: nat, p: nat)
    requires p < 14
    ensures B(Requests(s.bus.slots[p])) + Raised(s, n, p) == Taken(s, n, p) + B(Requests(Run(s, n).bus.slots[p]))
  {
    hide Step, Requests, Takes, Raises;
    if n > 0 {
      RequestsConserved(s, n - 1, p);
      RunAdd(s, n - 1, 1);
      assert Run(Run(s, n - 1), 1) == Step(Run(s, n - 1));
      StepRequests(Run(s, n - 1), p);
    }
  }

  // ----- draining -----

  lemma {:induction false} SamePorts(s: Slots, s': Slots, i: nat)
    requires i <= 14 && forall p :: 0 <= p < 14 ==> Requests(s[p]) == Requests(s'[p])
    ensures Ports(s, i) == Ports(s', i)
    decreases 14 - i
  {
    hide Requests;
    if i < 14 {
      SamePorts(s, s', i + 1);
    }
  }

  /** n DISPATCH READ AND CLEARs come next. */
  predicate DispatchesAhead(s: State, n: nat) {
    n > 0 ==>
      && Decode(NextWord(s)) == Dispatch(2)
      && forall j :: 1 <= j < n ==> Decode(FetchMicro(s.m, Forward(s.r.mar, j))) == Dispatch(2)
  }

  predicate SameCores(s: Slots, t: Slots) {
    forall p :: 0 <= p < 14 ==> Core(s[p]) == Core(t[p])
  }

  lemma CoresIdle(s: Slots, t: Slots, late: nat, early: nat)
    requires SameCores(s, t) && NoneDue(s, late) && early <= late
    ensures NoneDue(t, early)
  {
    forall p | 0 <= p < 14 ensures !Due(t[p], early) {
      assert !Due(s[p], late) && Core(s[p]) == Core(t[p]);
    }
  }

  /** u is what n dispatches make of s: the n lowest requests are taken and nothing else has happened. */
  predicate Drained(s: State, n: nat, u: State) {
    var ports := Ports(s.bus.slots, 0);
    && Ports(u.bus.slots, 0) == ports[Least(n, |ports|)..] && SameCores(s.bus.slots, u.bus.slots)
    && u.m == s.m && u.cycles == s.cycles + 2 * n && u.r.mar == Forward(s.r.mar, n) && !u.r.halted
    && (0 < n <= |ports| ==>
          && u.r.t == ports[n - 1] * 0x10_0000
          && u.r.l == (s.bus.slots[ports[n - 1]].value.desc.ria + 23) % 0x100_0000)
    && (n > |ports| ==> u.r.t == 1)
    && if n == 0 then u == s else u.r.lat.cc / 4 % 2 == 0 && !u.r.lat.pending
  }

  lemma PollIdle(s: State)
    requires NoneDue(s.bus.slots, s.cycles)
    ensures Poll(s).m == s.m && SameCores(s.bus.slots, Polled(s)) && Ports(Polled(s), 0) == Ports(s.bus.slots, 0)
    ensures NextWord(Poll(s)) == NextWord(s)
  {
    TickIdle(s.bus.slots, s.cycles, s.m, 14);
    PolledIs(s);
    hide TickSlots, Core, Requests, Ports;
    SamePorts(s.bus.slots, Polled(s), 0);
  }

  lemma CoreClears(s: Slots, t: Slots, p: nat)
    requires SameCores(s, t) && p < 14
    ensures SameCores(s, ClearRequest(t, p))
  {
  }

  lemma ForwardOne(mar: nat, n: nat)
    ensures Forward(Forward(mar, n), 1) == Forward(mar, n + 1) && (mar < 0x8_0000 ==> Forward(mar, 0) == mar)
  {
  }

  lemma DrainedMeans(s: State, n: nat, u: State)
    requires Drained(s, n, u)
    ensures SameCores(s.bus.slots, u.bus.slots) && u.cycles == s.cycles + 2 * n && !u.r.halted
  {
    hide Ports, Core, Forward;
  }

  lemma DrainsOne(s: State, n: nat, u: State)
    requires Drained(s, n, u) && NoneDue(s.bus.slots, s.cycles + 2 * n) && DispatchesAhead(s, n + 1)
    ensures Drained(s, n + 1, Step(u))
  {
    hide *;
    DrainedMeans(s, n, u);
    NextIsDispatch(s, n, u);
    CoresIdle(s.bus.slots, u.bus.slots, s.cycles + 2 * n, u.cycles);
    PollIdle(u);
    AcknowledgesLowest(u);
    CoresThrough(s.bus.slots, u.bus.slots, Polled(u));
    if Ports(u.bus.slots, 0) == [] {
      DrainsError(s, n, u, Step(u));
    } else {
      CoreClears(s.bus.slots, Polled(u), Ports(u.bus.slots, 0)[0]);
      SameRia(s.bus.slots, Polled(u), Ports(u.bus.slots, 0)[0]);
      DrainsNext(s, n, u, Step(u));
    }
  }

  lemma DrainsError(s: State, n: nat, u: State, t: State)
    requires Drained(s, n, u) && Ports(u.bus.slots, 0) == []
    requires t.m == u.m && t.cycles == u.cycles + 2 && t.r.mar == Forward(u.r.mar, 1) && !t.r.halted
    requires t.r.lat.cc / 4 % 2 == 0 && !t.r.lat.pending
    requires t.r.t == 1 && SameCores(s.bus.slots, t.bus.slots) && Ports(t.bus.slots, 0) == []
    ensures Drained(s, n + 1, t)
  {
    ForwardOne(s.r.mar, n);
    hide Ports, Core, Forward;
  }

  lemma DrainsNext(s: State, n: nat, u: State, t: State)
    requires Drained(s, n, u) && Ports(u.bus.slots, 0) != []
    requires t.m == u.m && t.cycles == u.cycles + 2 && t.r.mar == Forward(u.r.mar, 1) && !t.r.halted
    requires t.r.lat.cc / 4 % 2 == 0 && !t.r.lat.pending
    requires t.r.t == Ports(u.bus.slots, 0)[0] * 0x10_0000
    requires s.bus.slots[Ports(u.bus.slots, 0)[0]].Some?
    requires t.r.l == (s.bus.slots[Ports(u.bus.slots, 0)[0]].value.desc.ria + 23) % 0x100_0000
    requires SameCores(s.bus.slots, t.bus.slots) && Ports(t.bus.slots, 0) == Ports(u.bus.slots, 0)[1..]
    ensures Drained(s, n + 1, t)
  {
    ForwardOne(s.r.mar, n);
    hide Ports, Core, Forward;
  }

  lemma CoresThrough(s: Slots, t: Slots, u: Slots)
    requires SameCores(s, t) && SameCores(t, u)
    ensures SameCores(s, u)
  {
    hide Core;
  }

  lemma SameRia(s: Slots, t: Slots, p: nat)
    requires SameCores(s, t) && p < 14 && Requests(t[p])
    ensures s[p].Some? && s[p].value.desc == t[p].value.desc
  {
    assert Core(s[p]) == Core(t[p]);
  }

  lemma NextIsDispatch(s: State, n: nat, u: State)
    requires Drained(s, n, u) && NoneDue(s.bus.slots, s.cycles + 2 * n) && DispatchesAhead(s, n + 1)
    ensures NextOp(u) == Dispatch(2)
  {
    hide Ports, Core, Poll, NoneDue, Polled, Decode, FetchMicro, Forward;
    CoresIdle(s.bus.slots, u.bus.slots, s.cycles + 2 * n, u.cycles);
    PollIdle(u);
    if n > 0 {
      assert NextWord(u) == FetchMicro(s.m, Forward(s.r.mar, n));
    }
  }

  /** Simultaneous requests are drained by as many dispatches. From a state in which no device's operation falls due
      meanwhile, after n DISPATCH READ AND CLEARs the n lowest ports have been acknowledged, the last one named in T
      and its result word in L, the others still request; a dispatch too many reports an error. The poll before the next
      operator raises CC(1) and BICN exactly while requests remain. */
  lemma {:induction false} DrainsInOrder(s: State, n: nat)
    requires !s.r.halted && NoneDue(s.bus.slots, s.cycles + 2 * n) && DispatchesAhead(s, n)
    ensures Drained(s, n, Run(s, n))
    ensures var remain, lat := n < |Ports(s.bus.slots, 0)|, Poll(Run(s, n)).r.lat;
      && lat.bicn == B(remain)
      && (lat.cc / 4 % 2 == 1 <==> remain || (n == 0 && s.r.lat.cc / 4 % 2 == 1))
  {
    hide Ports, NoneDue, DispatchesAhead, Step, Poll, Core, Forward;
    if n > 0 {
      FewerDispatches(s, n);
      DrainsInOrder(s, n - 1);
      DrainsOne(s, n - 1, Run(s, n - 1));
      RunAdd(s, n - 1, 1);
      assert Run(Run(s, n - 1), 1) == Step(Run(s, n - 1));
    } else {
      ForwardOne(s.r.mar, 0);
    }
    var u := Run(s, n);
    CoresIdle(s.bus.slots, u.bus.slots, s.cycles + 2 * n, u.cycles);
    PollIdle(u);
    PolledIs(u);
  }

  lemma FewerDispatches(s: State, n: nat)
    requires n > 0 && NoneDue(s.bus.slots, s.cycles + 2 * n) && DispatchesAhead(s, n)
    ensures NoneDue(s.bus.slots, s.cycles + 2 * (n - 1)) && DispatchesAhead(s, n - 1)
  {
    assert SameCores(s.bus.slots, s.bus.slots);
    CoresIdle(s.bus.slots, s.bus.slots, s.cycles + 2 * n, s.cycles + 2 * (n - 1));
    hide NoneDue, Decode, FetchMicro, Forward, NextWord;
  }
}
