/** Multiplication modulo 2^24 by repeated addition, as both interpreters do it in the scratchpad. */
module Multiply {
  import opened Bits
  import opened Registers

  lemma ModAdd(u: nat, z: nat)
    ensures (u % 0x100_0000 + z) % 0x100_0000 == (u + z) % 0x100_0000
  {
    ModShift(u % 0x100_0000 + z, u / 0x100_0000);
  }

  lemma ModShift(w: nat, q: nat)
    ensures (w + 0x100_0000 * q) % 0x100_0000 == w % 0x100_0000
  {
    DivMod(w / 0x100_0000 + q, w % 0x100_0000, 0x100_0000);
  }

  lemma OneMoreTime(acc: nat, a: nat, k: nat)
    requires k > 0
    ensures ((acc + a) % 0x100_0000 + a * (k - 1)) % 0x100_0000 == (acc + a * k) % 0x100_0000
  {
    ModAdd(acc + a, a * (k - 1));
    assert a * k == a * (k - 1) + a;
  }

  /** What the loop makes of the scratchpad: word 2 holds multiplicand and counter, word 3 the accumulator. */
  function Multiplied(pads: Pads): Pads {
    var done := pads[2 := pads[2].(right := 0)];
    done[3 := pads[3].(left := (pads[3].left + pads[2].left * pads[2].right) % 0x100_0000)]
  }

  /** One pass adds the multiplicand to the accumulator and takes one off the counter; the value of
      accumulator + multiplicand * counter modulo 2^24 stays the same. */
  lemma PassKeepsProduct(pads: Pads, pads': Pads)
    requires pads[2].right > 0
    requires pads' == pads[3 := pads[3].(left := (pads[3].left + pads[2].left) % 0x100_0000)]
                          [2 := pads[2].(right := pads[2].right - 1)]
    ensures Multiplied(pads') == Multiplied(pads)
  {
    OneMoreTime(pads[3].left, pads[2].left, pads[2].right);
    assert Multiplied(pads')[3].left == Multiplied(pads)[3].left;
  }

  lemma NothingLeft(pads: Pads)
    requires pads[2].right == 0
    ensures Multiplied(pads) == pads
  {
    assert pads[2].left * pads[2].right == 0;
    assert Multiplied(pads)[3] == pads[3] && Multiplied(pads)[2] == pads[2];
  }
}
