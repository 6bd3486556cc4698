/** Positions in a circular array whose size is a power of two, where the code masks. */
module Slots {

  /** (front - back) & (size - 1). */
  function Slot(front: nat, back: nat, size: nat): (slot: nat)
    requires front < size && back <= size
    ensures slot < size
  {
    if front >= back then front - back else front - back + size
  }

  lemma SlotIsMask(front: nat, back: nat, size: nat)
    requires front < size && back <= size
    ensures (front - back) % size == Slot(front, back, size)
  {
    var q, r := (front - back) / size, (front - back) % size;
    assert front - back == q * size + r;
    Signs(q, size);
  }

  lemma Signs(q: int, n: nat)
    ensures q >= 1 ==> q * n >= n
    ensures q <= -2 ==> q * n <= -2 * n
  {
  }

  /** (slot + 1) & (size - 1). */
  lemma NextSlot(slot: nat, size: nat)
    requires slot < size
    ensures (slot + 1) % size == if slot + 1 < size then slot + 1 else 0
  {
    if slot + 1 < size {
      SlotIsMask(slot + 1, 0, size);
    }
  }
}
