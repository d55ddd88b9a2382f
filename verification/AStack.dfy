/** The A-stack: a ring of `depth` words that behaves as a stack remembering its most recent values. */
module AStack {
  import opened Bits
  import opened Registers

  /** Index of the k-th most recent entry. */
  function RingIndex(sp: nat, depth: nat, k: nat): nat
    requires k < depth && sp < depth
  {
    if k <= sp then sp - k else sp + depth - k
  }

  /** The ring holds the stack st, last element on top. */
  predicate RingHolds(r: Regs, st: seq<Word>) {
    r.sp < r.depth && |st| <= r.depth &&
    forall k :: 0 <= k < |st| ==> r.stack[RingIndex(r.sp, r.depth, k)] == st[|st| - 1 - k]
  }

  /** A push onto a full stack forgets the oldest value. */
  function Remember(depth: nat, st: seq<Word>, v: Word): seq<Word>
    requires depth > 0
  {
    if |st| < depth then st + [v] else st[1..] + [v]
  }

  lemma PointerSteps(sp: nat, depth: nat)
    requires sp < depth
    ensures (sp + 1) % depth == (if sp + 1 == depth then 0 else sp + 1)
    ensures (sp + depth - 1) % depth == (if sp == 0 then depth - 1 else sp - 1)
  {
    if sp + 1 == depth {
      DivMod(1, 0, depth);
    } else {
      DivMod(0, sp + 1, depth);
    }
    if sp == 0 {
      DivMod(0, depth - 1, depth);
    } else {
      DivMod(1, sp - 1, depth);
    }
  }

  lemma PushRefines(r: Regs, st: seq<Word>, v: Word)
    requires RingHolds(r, st)
    ensures RingHolds(Push(r, v), Remember(r.depth, st, v))
  {
    PointerSteps(r.sp, r.depth);
    var r', st' := Push(r, v), Remember(r.depth, st, v);
    forall k | 0 <= k < |st'|
      ensures r'.stack[RingIndex(r'.sp, r'.depth, k)] == st'[|st'| - 1 - k]
    {
      if k > 0 {
        assert RingIndex(r'.sp, r'.depth, k) == RingIndex(r.sp, r.depth, k - 1) != r'.sp;
      }
    }
  }

  lemma PopRefines(r: Regs, st: seq<Word>)
    requires RingHolds(r, st) && |st| > 0
    ensures Top(r) == st[|st| - 1]
    ensures RingHolds(Pop(r), st[..|st| - 1])
  {
    PointerSteps(r.sp, r.depth);
    var r', st' := Pop(r), st[..|st| - 1];
    assert RingIndex(r.sp, r.depth, 0) == r.sp;
    forall k | 0 <= k < |st'|
      ensures r'.stack[RingIndex(r'.sp, r'.depth, k)] == st'[|st'| - 1 - k]
    {
      assert RingIndex(r'.sp, r'.depth, k) == RingIndex(r.sp, r.depth, k + 1);
    }
  }

  // ----- whole runs -----

  datatype StackOp = PushValue(v: Word) | PopValue

  /** Registers after the operations, and the values popped. */
  function RunRing(r: Regs, ops: seq<StackOp>): (Regs, seq<Word>)
    decreases ops
  {
    if ops == [] then (r, [])
    else
      match ops[0]
      case PushValue(v) => RunRing(Push(r, v), ops[1..])
      case PopValue => var (r', popped) := RunRing(Pop(r), ops[1..]); (r', [Top(r)] + popped)
  }

  /** The same on an unbounded list that keeps the last `depth` values. */
  function RunStack(depth: nat, st: seq<Word>, ops: seq<StackOp>): (seq<Word>, seq<Word>)
    requires depth > 0
    decreases ops
  {
    if ops == [] then (st, [])
    else
      match ops[0]
      case PushValue(v) => RunStack(depth, Remember(depth, st, v), ops[1..])
      case PopValue =>
        if st == [] then RunStack(depth, st, ops[1..])
        else
          var (st', popped) := RunStack(depth, st[..|st| - 1], ops[1..]);
          (st', [st[|st| - 1]] + popped)
  }

  /** No pop of the run reaches below the values the stack remembers. */
  predicate NoUnderflow(depth: nat, st: seq<Word>, ops: seq<StackOp>)
    requires depth > 0
    decreases ops
  {
    ops == [] ||
    match ops[0]
    case PushValue(v) => NoUnderflow(depth, Remember(depth, st, v), ops[1..])
    case PopValue => st != [] && NoUnderflow(depth, st[..|st| - 1], ops[1..])
  }

  /** For any run of pushes and pops that stays within the remembered values, the ring pops what the
      stack pops and ends up holding the same stack. */
  lemma {:induction false} RingRefinesStack(r: Regs, st: seq<Word>, ops: seq<StackOp>)
    requires RingHolds(r, st) && NoUnderflow(r.depth, st, ops)
    ensures RunRing(r, ops).1 == RunStack(r.depth, st, ops).1
    ensures RingHolds(RunRing(r, ops).0, RunStack(r.depth, st, ops).0)
    decreases |ops|
  {
    if ops != [] {
      match ops[0]
      case PushValue(v) =>
        PushRefines(r, st, v);
        RingRefinesStack(Push(r, v), Remember(r.depth, st, v), ops[1..]);
      case PopValue =>
        PopRefines(r, st);
        RingRefinesStack(Pop(r), st[..|st| - 1], ops[1..]);
    }
  }
}
