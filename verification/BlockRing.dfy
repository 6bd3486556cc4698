/** The explicit producer's storage (archive/other_src/concurrentqueue.h:1564-1689, 1774-2057,
    2345-2398): a ring of blocks, reused once empty, and a circular index of the blocks that
    doubles when full. Consumers claim an index first and move the element out later, in any
    order; in between the producer keeps enqueuing, also into a larger index, while a consumer
    may still look its block up in the one it loaded before. The arrays inside a block and
    inside an index are sequences of fixed length. */
module BlockRing {
  import Circular
  import opened Slots

  // Traits::BLOCK_SIZE; at most EXPLICIT_BLOCK_EMPTY_COUNTER_THRESHOLD, so emptiness is kept in flags.
  const BLOCK_SIZE: nat := 32

  class Block<T> {
    var elements: seq<T>
    var emptyFlags: seq<bool>
    var next: Block<T>

    constructor (elements: seq<T>)
      requires |elements| == BLOCK_SIZE
      ensures Sized() && this.elements == elements && next == this
    {
      this.elements := elements;
      emptyFlags := seq(BLOCK_SIZE, _ => false);
      next := this;
    }

    predicate Sized()
      reads this`elements, this`emptyFlags
    {
      |elements| == |emptyFlags| == BLOCK_SIZE
    }

    /** is_empty: every slot has been dequeued. */
    method IsEmpty() returns (empty: bool)
      requires Sized()
      ensures empty <==> forall k :: 0 <= k < BLOCK_SIZE ==> emptyFlags[k]
    {
      var i := 0;
      while i < BLOCK_SIZE
        invariant i <= BLOCK_SIZE
        invariant forall k :: 0 <= k < i ==> emptyFlags[k]
      {
        if !emptyFlags[i] {
          return false;
        }
        i := i + 1;
      }
      return true;
    }

    /** reset_empty. */
    method ResetEmpty()
      requires Sized()
      modifies this`emptyFlags
      ensures Sized()
      ensures forall k :: 0 <= k < BLOCK_SIZE ==> !emptyFlags[k]
    {
      var i := 0;
      while i < BLOCK_SIZE
        invariant i <= BLOCK_SIZE && Sized()
        invariant forall k :: 0 <= k < i ==> !emptyFlags[k]
      {
        emptyFlags := emptyFlags[i := false];
        i := i + 1;
      }
    }

    /** set_empty. The flags are indexed from the end of the block. */
    method SetEmpty(r: nat)
      requires Sized() && r < BLOCK_SIZE
      modifies this`emptyFlags
      ensures Sized()
      ensures emptyFlags == old(emptyFlags)[BLOCK_SIZE - 1 - r := true]
    {
      emptyFlags := emptyFlags[BLOCK_SIZE - 1 - r := true];
    }
  }

  /** What a block numbered so holds, slot by slot: it is marked empty exactly if the element
      has been moved out, and otherwise, below the tail, has what was enqueued at that index.
      The flags are indexed from the end of the block. */
  ghost predicate Holds<T>(elements: seq<T>, flags: seq<bool>, number: nat, history: seq<T>, finished: set<nat>) {
    && |elements| == |flags| == BLOCK_SIZE
    && (forall r :: 0 <= r < BLOCK_SIZE ==> SlotHolds(elements, flags, number, r, history, finished))
  }

  ghost predicate SlotHolds<T>(elements: seq<T>, flags: seq<bool>, number: nat, r: nat, history: seq<T>, finished: set<nat>)
    requires |elements| == |flags| == BLOCK_SIZE && r < BLOCK_SIZE
  {
    var i := number * BLOCK_SIZE + r;
    && (flags[BLOCK_SIZE - 1 - r] <==> i in finished)
    && (i < |history| && i !in finished ==> elements[r] == history[i])
  }

  /** A block whose slots are all marked empty has had all its elements moved out. */
  lemma EmptyMeansFinished<T>(elements: seq<T>, flags: seq<bool>, number: nat, history: seq<T>, finished: set<nat>)
    requires Holds(elements, flags, number, history, finished)
    requires forall k :: 0 <= k < BLOCK_SIZE ==> flags[k]
    ensures forall i :: number * BLOCK_SIZE <= i < (number + 1) * BLOCK_SIZE ==> i in finished
  {
    forall i | number * BLOCK_SIZE <= i < (number + 1) * BLOCK_SIZE
      ensures i in finished
    {
      assert SlotHolds(elements, flags, number, i - number * BLOCK_SIZE, history, finished);
    }
  }

  /** And the other way round. */
  lemma FinishedIsEmpty<T>(elements: seq<T>, flags: seq<bool>, number: nat, history: seq<T>, finished: set<nat>)
    requires Holds(elements, flags, number, history, finished)
    ensures (forall k :: 0 <= k < BLOCK_SIZE ==> flags[k])
            <==> forall i :: number * BLOCK_SIZE <= i < (number + 1) * BLOCK_SIZE ==> i in finished
  {
    if forall i :: number * BLOCK_SIZE <= i < (number + 1) * BLOCK_SIZE ==> i in finished {
      forall k | 0 <= k < BLOCK_SIZE
        ensures flags[k]
      {
        assert SlotHolds(elements, flags, number, BLOCK_SIZE - 1 - k, history, finished);
      }
    }
    if forall k :: 0 <= k < BLOCK_SIZE ==> flags[k] {
      EmptyMeansFinished(elements, flags, number, history, finished);
    }
  }

  /** A block with no slot marked empty is ready to be filled from the tail on. */
  lemma ResetHolds<T>(elements: seq<T>, flags: seq<bool>, number: nat, history: seq<T>, finished: set<nat>)
    requires |elements| == |flags| == BLOCK_SIZE
    requires forall k :: 0 <= k < BLOCK_SIZE ==> !flags[k]
    requires |history| <= number * BLOCK_SIZE && forall i :: i in finished ==> i < |history|
    ensures Holds(elements, flags, number, history, finished)
  {
  }

  datatype Entry<T> = Unused | Entry(base: nat, block: Block<T>)

  // BlockIndexHeader; front is the slot of the newest block.
  class BlockIndex<T> {
    var entries: seq<Entry<T>>
    var front: nat

    constructor (size: nat)
      ensures entries == seq(size, _ => Unused)
    {
      entries := seq(size, _ => Unused);
      front := 0;
    }
  }

  /** The newest entries, up to the slot before frontNext, are these blocks, numbered from first. */
  ghost predicate Lists<T>(entries: seq<Entry<T>>, frontNext: nat, blocks: seq<Block<T>>, first: nat) {
    && |blocks| <= |entries| && frontNext < |entries|
    && (forall j :: 0 <= j < |blocks| ==>
          entries[Slot(frontNext, |blocks| - j, |entries|)] == Entry((first + j) * BLOCK_SIZE, blocks[j]))
  }

  function NextOf(slot: nat, size: nat): (next: nat)
    requires slot < size
    ensures next < size
  {
    if slot + 1 < size then slot + 1 else 0
  }

  /** The next block goes into the next slot, pushing out the oldest if the index is full. */
  lemma ListsNext<T>(entries: seq<Entry<T>>, frontNext: nat, blocks: seq<Block<T>>, first: nat, b: Block<T>)
    requires Lists(entries, frontNext, blocks, first) && |blocks| < |entries|
    ensures Lists(entries[frontNext := Entry((first + |blocks|) * BLOCK_SIZE, b)],
                  NextOf(frontNext, |entries|), blocks + [b], first)
  {
  }

  lemma ListsUnrolled<T>(entries: seq<Entry<T>>, fuller: seq<Entry<T>>, frontNext: nat, blocks: seq<Block<T>>, first: nat)
    requires Lists(entries, frontNext, blocks, first) && |blocks| == |entries| && |fuller| == 2 * |entries|
    requires forall k :: 0 <= k < |entries| ==> fuller[k] == entries[Slot(frontNext, |entries| - k, |entries|)]
    ensures Lists(fuller, |entries|, blocks, first)
  {
  }

  lemma ListsTail<T>(entries: seq<Entry<T>>, frontNext: nat, blocks: seq<Block<T>>, first: nat)
    requires Lists(entries, frontNext, blocks, first) && blocks != []
    ensures Lists(entries, frontNext, blocks[1..], first + 1)
  {
    forall j | 0 <= j < |blocks| - 1
      ensures entries[Slot(frontNext, |blocks| - 1 - j, |entries|)] == Entry((first + 1 + j) * BLOCK_SIZE, blocks[1..][j])
    {
      assert blocks[1..][j] == blocks[j + 1];
      assert |blocks| - 1 - j == |blocks| - (j + 1);
    }
  }

  /** A consumer may work with a front it loaded some time ago, when started blocks had been
      started: the blocks still in the ring are found at their distance behind it. */
  ghost predicate Sees<T>(entries: seq<Entry<T>>, front: nat, started: nat, ring: seq<Block<T>>, first: nat) {
    && front < |entries| && started <= first + |ring| && started <= first + |entries|
    && (forall j :: 0 <= j < |ring| && first + j < started ==>
          entries[Slot(front, started - 1 - first - j, |entries|)] == Entry((first + j) * BLOCK_SIZE, ring[j]))
  }

  /** In the index in use the next slot to write has moved on from that front by one for each block
      started since, unless nothing that was there is in the ring any more. */
  ghost predicate Abreast(front: nat, started: nat, frontNext: nat, size: nat, first: nat, total: nat) {
    && front < size && frontNext < size && started <= total
    && (first < started ==> total - started < size && front == Slot(frontNext, total - started + 1, size))
  }

  lemma AbreastSees<T>(entries: seq<Entry<T>>, front: nat, started: nat, frontNext: nat, ring: seq<Block<T>>, first: nat)
    requires Lists(entries, frontNext, ring, first)
    requires Abreast(front, started, frontNext, |entries|, first, first + |ring|)
    ensures Sees(entries, front, started, ring, first)
  {
    forall j | 0 <= j < |ring| && first + j < started
      ensures entries[Slot(front, started - 1 - first - j, |entries|)] == Entry((first + j) * BLOCK_SIZE, ring[j])
    {
      assert Slot(front, started - 1 - first - j, |entries|) == Slot(frontNext, |ring| - j, |entries|);
    }
  }

  lemma AbreastNext(front: nat, started: nat, frontNext: nat, size: nat, first: nat, total: nat, first': nat)
    requires Abreast(front, started, frontNext, size, first, total) && first <= first' && total + 1 - first' <= size
    ensures Abreast(front, started, NextOf(frontNext, size), size, first', total + 1)
  {
  }

  /** Older fronts see the same blocks after the oldest became the newest, or a new one was added. */
  lemma SeesNext<T>(entries: seq<Entry<T>>, front: nat, started: nat, ring: seq<Block<T>>, first: nat, b: Block<T>)
    requires Sees(entries, front, started, ring, first)
    ensures Sees(entries, front, started, ring + [b], first)
    ensures ring != [] ==> Sees(entries, front, started, ring[1..] + [b], first + 1)
  {
    if ring != [] {
      var later := ring[1..] + [b];
      forall j | 0 <= j < |later| && first + 1 + j < started
        ensures entries[Slot(front, started - 1 - (first + 1) - j, |entries|)] == Entry((first + 1 + j) * BLOCK_SIZE, later[j])
      {
        assert later[j] == ring[j + 1];
        assert started - 1 - (first + 1) - j == started - 1 - first - (j + 1);
      }
    }
  }

  /** At most one block has been started, the oldest again or a new one. */
  ghost predicate Turned<T>(ring: seq<Block<T>>, first: nat, ring': seq<Block<T>>, first': nat) {
    || (ring' == ring && first' == first)
    || TurnedOnce(ring, first, ring', first')
  }

  ghost predicate TurnedOnce<T>(ring: seq<Block<T>>, first: nat, ring': seq<Block<T>>, first': nat) {
    || (first' == first && |ring'| == |ring| + 1 && ring' == ring + [ring'[|ring|]])
    || (first' == first + 1 && ring != [] && ring' == ring[1..] + [ring[0]])
  }

  /** What enqueue does to the index in use and to the ring. A replaced index is left alone. */
  ghost predicate Moved<T>(same: bool, size: nat, frontNext: nat, ring: seq<Block<T>>, first: nat,
                           size': nat, frontNext': nat, ring': seq<Block<T>>, first': nat) {
    if same then
      && size' == size && frontNext < size
      && ((frontNext' == frontNext && ring' == ring && first' == first)
          || (frontNext' == NextOf(frontNext, size) && TurnedOnce(ring, first, ring', first')))
    else ring != [] && Turned(ring, first, ring', first')
  }

  lemma SeesTurned<T>(entries: seq<Entry<T>>, front: nat, started: nat,
                      ring: seq<Block<T>>, first: nat, ring': seq<Block<T>>, first': nat)
    requires Sees(entries, front, started, ring, first) && Turned(ring, first, ring', first')
    ensures Sees(entries, front, started, ring', first')
  {
    hide Sees;
    if ring' != [] {
      SeesNext(entries, front, started, ring, first, ring'[|ring'| - 1]);
    }
  }

  lemma AbreastMoved<T>(front: nat, started: nat, size: nat, frontNext: nat, ring: seq<Block<T>>, first: nat,
                        frontNext': nat, ring': seq<Block<T>>, first': nat)
    requires Abreast(front, started, frontNext, size, first, first + |ring|) && |ring'| <= size
    requires Moved(true, size, frontNext, ring, first, size, frontNext', ring', first')
    ensures Abreast(front, started, frontNext', size, first', first' + |ring'|)
  {
    hide Abreast;
    if TurnedOnce(ring, first, ring', first') && frontNext' == NextOf(frontNext, size) {
      AbreastNext(front, started, frontNext, size, first, first + |ring|, first');
    }
  }

  /** While the block of index i is in the ring, base, offset and mask lead to it from any such front. */
  lemma StaleFrontFinds<T>(entries: seq<Entry<T>>, front: nat, started: nat, ring: seq<Block<T>>, first: nat, i: nat)
    requires Sees(entries, front, started, ring, first) && first <= i / BLOCK_SIZE < started
    ensures entries[front].Entry? && entries[front].base == (started - 1) * BLOCK_SIZE
    ensures var offset := (i - i % BLOCK_SIZE - entries[front].base) / BLOCK_SIZE;
            entries[(front + offset) % |entries|] == Entry(i - i % BLOCK_SIZE, ring[i / BLOCK_SIZE - first])
  {
    var newest := ring[started - 1 - first];
    assert entries[Slot(front, started - 1 - first - (started - 1 - first), |entries|)] == Entry((started - 1) * BLOCK_SIZE, newest);
    var offset := (i - i % BLOCK_SIZE - entries[front].base) / BLOCK_SIZE;
    assert offset == i / BLOCK_SIZE - (started - 1);
    SlotIsMask(front, -offset, |entries|);
    var j := i / BLOCK_SIZE - first;
    assert entries[Slot(front, started - 1 - first - j, |entries|)] == Entry((first + j) * BLOCK_SIZE, ring[j]);
  }

  /** Exactly when enqueue succeeds, replaces its index, and makes the ring longer: inside a block it always
      has room; at a boundary it reuses the block ahead if that is empty, and else needs a spare block, leeway
      and room in the index, if need be in a larger one. */
  ghost predicate Answers(inside: bool, empty: bool, leeway: bool, room: bool, indexOk: bool, spare: bool,
                          ok: bool, replaced: bool, longer: int) {
    && (ok <==> inside || empty || (leeway && (room || indexOk) && spare))
    && (replaced <==> !inside && !empty && leeway && !room && indexOk)
    && longer == (if !inside && !empty && ok then 1 else 0)
  }

  datatype Dequeued<T> = Nothing | Element(x: T)

  class ExplicitProducer<T> {
    var tailIndex: nat
    var headIndex: nat
    var tailBlock: Block?<T>
    var index: BlockIndex<T>      // blockIndex, pr_blockIndexEntries
    var slotsUsed: nat            // pr_blockIndexSlotsUsed
    var frontNext: nat            // pr_blockIndexFront, the next slot to write

    ghost var history: seq<T>     // everything ever enqueued
    ghost var finished: set<nat>  // the indices whose element has been moved out
    ghost var ring: seq<Block<T>> // the blocks in the order of next, from the oldest to the tail block
    ghost var first: nat          // the number of the oldest block

    /** The blocks are different, form one ring, and the tail block is the last of them. */
    ghost predicate RingLinked()
      reads this`ring, this`tailBlock, ring`next
    {
      && (forall i, j :: 0 <= i < j < |ring| ==> ring[i] != ring[j])
      && (if ring == [] then tailBlock == null else tailBlock == ring[|ring| - 1])
      && (forall j :: 0 <= j < |ring| ==> ring[j].next == ring[if j + 1 < |ring| then j + 1 else 0])
    }

    /** Every ring block holds what was enqueued into it, and all before it is moved out. */
    ghost predicate Contents()
      reads this`ring, this`first, this`history, this`finished, ring`elements, ring`emptyFlags
    {
      && (forall j :: 0 <= j < |ring| ==>
            Holds(ring[j].elements, ring[j].emptyFlags, first + j, history, finished))
      && (forall i :: 0 <= i < first * BLOCK_SIZE ==> i in finished)
    }

    ghost predicate Counters()
      reads this`history, this`finished, this`tailIndex, this`headIndex
    {
      && |history| == tailIndex && headIndex <= tailIndex
      && (forall i :: i in finished ==> i < headIndex)
    }

    ghost predicate Valid()
      reads this, index, ring
    {
      && RingLinked() && Contents() && Counters()
      && tailIndex <= (first + |ring|) * BLOCK_SIZE < tailIndex + BLOCK_SIZE
      && slotsUsed == |ring| && 0 < |index.entries|
      && Lists(index.entries, frontNext, ring, first)
      && (ring != [] ==> index.front == Slot(frontNext, 1, |index.entries|))
    }

    /** The plain queue that all this stands for. */
    ghost function Queue(): seq<T>
      requires headIndex <= |history|
      reads this`headIndex, this`history
    {
      history[headIndex..]
    }

    /** An empty producer whose index has indexSize slots. */
    constructor (indexSize: nat)
      requires indexSize > 1
      ensures Valid() && fresh(index)
      ensures history == [] && finished == {} && headIndex == 0 && ring == []
    {
      tailIndex, headIndex, tailBlock := 0, 0, null;
      slotsUsed, frontNext := 0, 0;
      history, finished, ring, first := [], {}, [], 0;
      index := new BlockIndex<T>(indexSize);
    }

    /** The block ahead is empty: it becomes the tail block again. */
    method ReuseNext()
      requires RingLinked() && ring != [] && Contents() && Counters()
      requires (first + |ring|) * BLOCK_SIZE == tailIndex
      requires tailBlock.next.Sized() && forall k :: 0 <= k < BLOCK_SIZE ==> tailBlock.next.emptyFlags[k]
      modifies this`tailBlock, this`ring, this`first, tailBlock.next`emptyFlags
      ensures RingLinked() && Contents()
      ensures ring == old(ring)[1..] + [old(ring)[0]] && first == old(first) + 1
    {
      EmptyMeansFinished(ring[0].elements, ring[0].emptyFlags, first + 0, history, finished);
      tailBlock := tailBlock.next;
      tailBlock.ResetEmpty();
      ring, first := ring[1..] + [ring[0]], first + 1;
      ResetHolds(tailBlock.elements, tailBlock.emptyFlags, first + |ring| - 1, history, finished);
      forall j | 0 <= j < |ring|
        ensures Holds(ring[j].elements, ring[j].emptyFlags, first + j, history, finished)
      {
        if j + 1 < |ring| {
          assert ring[j] == old(ring)[j + 1];
        }
      }
    }

    /** A block from the pool is linked in behind the tail block. */
    method InsertBlock(spare: Block<T>)
      requires RingLinked() && Contents() && Counters() && slotsUsed == |ring|
      requires (first + |ring|) * BLOCK_SIZE == tailIndex
      requires spare !in ring && spare.Sized()
      modifies this`tailBlock, this`ring, this`slotsUsed, ring`next, spare`next, spare`emptyFlags
      ensures RingLinked() && Contents()
      ensures ring == old(ring) + [spare] && slotsUsed == |ring|
    {
      hide Holds, SlotHolds;
      spare.ResetEmpty();
      if tailBlock == null {
        spare.next := spare;
      } else {
        spare.next := tailBlock.next;
        tailBlock.next := spare;
      }
      tailBlock := spare;
      slotsUsed := slotsUsed + 1;
      ring := ring + [spare];
      ResetHolds(spare.elements, spare.emptyFlags, first + |ring| - 1, history, finished);
    }

    /** Writes the entry of the tail block into the next slot and publishes it. */
    method AddToIndex()
      requires ring != [] && (first + |ring| - 1) * BLOCK_SIZE == tailIndex
      requires tailBlock == ring[|ring| - 1] && |ring| <= |index.entries|
      requires Lists(index.entries, frontNext, ring[..|ring| - 1], first)
      modifies this`frontNext, index
      ensures Lists(index.entries, frontNext, ring, first) && |index.entries| == old(|index.entries|)
      ensures index.front == Slot(frontNext, 1, |index.entries|) && frontNext == NextOf(old(frontNext), |index.entries|)
    {
      ListsNext(index.entries, frontNext, ring[..|ring| - 1], first, tailBlock);
      NextSlot(frontNext, |index.entries|);
      assert ring == ring[..|ring| - 1] + [tailBlock] && frontNext < |index.entries|;
      hide Lists;
      index.entries := index.entries[frontNext := Entry(tailIndex, tailBlock)];
      index.front := frontNext;
      frontNext := (frontNext + 1) % |index.entries|;
    }

    /** The entries move, in order, to the start of an index twice the size. */
    method Unrolled() returns (fuller: BlockIndex<T>)
      requires 0 < slotsUsed == |index.entries| && frontNext < |index.entries|
      ensures fresh(fuller) && |fuller.entries| == 2 * |index.entries| && fuller.front == slotsUsed - 1
      ensures forall k :: 0 <= k < slotsUsed ==> fuller.entries[k] == index.entries[Slot(frontNext, slotsUsed - k, |index.entries|)]
    {
      var previous, used, front := index.entries, slotsUsed, frontNext;
      fuller := new BlockIndex<T>(2 * |previous|);
      SlotIsMask(front, used, |previous|);
      var j: nat, i := 0, (front - used) % |previous|;
      while j == 0 || i != front
        invariant j <= used && |fuller.entries| == 2 * |previous|
        invariant i == Slot(front, used - j, |previous|)
        invariant forall k :: 0 <= k < j ==> fuller.entries[k] == previous[Slot(front, used - k, |previous|)]
        decreases used - j
      {
        NextSlot(i, |previous|);
        fuller.entries := fuller.entries[j := previous[i]];
        j, i := j + 1, (i + 1) % |previous|;
      }
      assert j == used;
      fuller.front := used - 1;
    }

    /** new_block_index. */
    method NewBlockIndex()
      requires slotsUsed == |ring| == |index.entries| > 0 && Lists(index.entries, frontNext, ring, first)
      modifies this`index, this`frontNext
      ensures Lists(index.entries, frontNext, ring, first) && fresh(index)
      ensures index.front == Slot(frontNext, 1, |index.entries|)
      ensures |index.entries| == 2 * old(|index.entries|)
    {
      var fuller := Unrolled();
      ListsUnrolled(index.entries, fuller.entries, frontNext, ring, first);
      frontNext := slotsUsed;
      index := fuller;
    }

    /** Constructs the element in its slot of the tail block and publishes the new tail. */
    method Store(x: T)
      requires RingLinked() && Contents() && Counters() && ring != []
      requires (first + |ring| - 1) * BLOCK_SIZE <= tailIndex < (first + |ring|) * BLOCK_SIZE
      modifies this`tailIndex, this`history, tailBlock`elements
      ensures RingLinked() && Contents() && Counters()
      ensures history == old(history) + [x] && tailIndex == old(tailIndex) + 1
    {
      ghost var number, r := first + |ring| - 1, tailIndex % BLOCK_SIZE;
      assert number * BLOCK_SIZE + r == tailIndex;
      tailBlock.elements := tailBlock.elements[tailIndex % BLOCK_SIZE := x];
      tailIndex := tailIndex + 1;
      history := history + [x];
      assert old(Holds(tailBlock.elements, tailBlock.emptyFlags, number, history, finished));
      forall q | 0 <= q < BLOCK_SIZE
        ensures SlotHolds(tailBlock.elements, tailBlock.emptyFlags, number, q, history, finished)
      {
        assert old(SlotHolds(tailBlock.elements, tailBlock.emptyFlags, number, q, history, finished));
      }
      forall j | 0 <= j < |ring| - 1
        ensures Holds(ring[j].elements, ring[j].emptyFlags, first + j, history, finished)
      {
        OlderHolds(ring[j].elements, ring[j].emptyFlags, first + j, old(history), x, finished);
      }
    }

    /** Everything in the oldest block has been moved out. */
    ghost predicate OldestFinished()
      reads this`ring, this`first, this`finished
    {
      ring != [] && forall i :: first * BLOCK_SIZE <= i < (first + 1) * BLOCK_SIZE ==> i in finished
    }

    /** The block ahead is found empty exactly if all that was in it has been moved out. */
    method NextIsEmpty() returns (empty: bool)
      requires Valid()
      ensures empty <==> OldestFinished()
      ensures empty ==> ring != [] && tailBlock.next.Sized() && forall k :: 0 <= k < BLOCK_SIZE ==> tailBlock.next.emptyFlags[k]
      ensures empty ==> tailBlock.next in ring
    {
      if tailBlock == null {
        return false;
      }
      assert tailBlock.next == ring[0] && ring[0].Sized();
      FinishedIsEmpty(ring[0].elements, ring[0].emptyFlags, first + 0, history, finished);
      hide Contents, Counters, RingLinked, Lists;
      empty := tailBlock.next.IsEmpty();
    }

    /** Reuse of the block ahead, including its entry in the index. */
    method StartInNext()
      requires Valid() && (first + |ring|) * BLOCK_SIZE == tailIndex && ring != []
      requires tailBlock.next.Sized() && forall k :: 0 <= k < BLOCK_SIZE ==> tailBlock.next.emptyFlags[k]
      modifies this`frontNext, this`tailBlock, this`ring, this`first, index, tailBlock.next`emptyFlags
      ensures Ready() && |index.entries| == old(|index.entries|) && frontNext == NextOf(old(frontNext), |index.entries|)
      ensures ring == old(ring)[1..] + [old(ring)[0]] && first == old(first) + 1
    {
      ListsTail(index.entries, frontNext, ring, first);
      hide Contents, Counters, Lists;
      ReuseNext();
      assert ring[..|ring| - 1] == old(ring)[1..];
      AddToIndex();
    }

    ghost predicate Leeway()
      reads this`headIndex, this`tailIndex
    {
      Circular.CircularLessThan(Circular.Wrap(headIndex), Circular.Wrap(tailIndex + BLOCK_SIZE))
    }

    /** While the indices in use fit the width, there is leeway exactly up to half of it. */
    lemma LeewayIsHalf()
      requires headIndex <= tailIndex && tailIndex + BLOCK_SIZE - headIndex < Circular.WIDTH
      ensures Leeway() <==> tailIndex + BLOCK_SIZE - headIndex < Circular.HALF
    {
      Circular.BehindByLess(headIndex, tailIndex + BLOCK_SIZE);
    }

    /** The tail could not surpass the head, as wrapped indices see it, before the block fills up. */
    method HasLeeway() returns (ok: bool)
      ensures ok <==> Leeway()
    {
      ok := Circular.CircularLessThan(Circular.Wrap(headIndex), Circular.Wrap(tailIndex + BLOCK_SIZE));
    }

    /** A larger index, if the index is full. */
    method MakeRoom(indexOk: bool) returns (ok: bool)
      requires Valid()
      modifies this`index, this`frontNext
      ensures Valid() && (if index == old(index) then frontNext == old(frontNext) else fresh(index) && ring != [])
      ensures ok <==> indexOk || |ring| < |old(index).entries|
      ensures index != old(index) <==> indexOk && |ring| == |old(index).entries|
      ensures ok ==> |ring| < |index.entries|
    {
      if slotsUsed == |index.entries| {
        if !indexOk {
          return false;
        }
        NewBlockIndex();
      }
      return true;
    }

    /** A block of the pool becomes the tail block, with its entry in the index. */
    method StartInSpare(spare: Block<T>)
      requires Valid() && (first + |ring|) * BLOCK_SIZE == tailIndex && |ring| < |index.entries|
      requires spare !in ring && spare.Sized()
      modifies this`frontNext, this`slotsUsed, this`tailBlock, this`ring
      modifies index, ring`next, spare`next, spare`emptyFlags
      ensures Ready() && |index.entries| == old(|index.entries|) && frontNext == NextOf(old(frontNext), |index.entries|)
      ensures ring == old(ring) + [spare]
    {
      hide Contents, Counters;
      InsertBlock(spare);
      assert ring[..|ring| - 1] == old(ring);
      AddToIndex();
    }

    /** As Valid, with the next index to be stored in the tail block. */
    ghost predicate Ready()
      reads this, index, ring
    {
      && RingLinked() && Contents() && Counters()
      && ring != [] && (first + |ring| - 1) * BLOCK_SIZE <= tailIndex < (first + |ring|) * BLOCK_SIZE
      && slotsUsed == |ring| && 0 < |index.entries|
      && Lists(index.entries, frontNext, ring, first)
      && index.front == Slot(frontNext, 1, |index.entries|)
    }

    lemma TailBlockExists()
      requires Valid() && tailIndex % BLOCK_SIZE != 0
      ensures Ready()
    {
      assert ring == [] ==> tailIndex in finished;
    }

    /** The part of enqueue at a block boundary. indexOk says whether a larger index can be
        allocated if one is needed, and spare is what requisition_block returns, if called. */
    method StartBlock(indexOk: bool, spare: Block?<T>) returns (ok: bool)
      requires Valid() && tailIndex % BLOCK_SIZE == 0
      requires spare != null ==> spare !in ring && spare.Sized()
      modifies this`index, this`frontNext, this`slotsUsed, this`tailBlock, this`ring, this`first
      modifies index, ring, spare
      ensures if ok then Ready() else Valid()
      ensures index == old(index) || fresh(index)
      ensures forall b :: b in ring ==> b in old(ring) || b == spare
      ensures Moved(index == old(index), old(|index.entries|), old(frontNext), old(ring), old(first),
                    |index.entries|, frontNext, ring, first)
      ensures index != old(index) ==> old(index).entries == old(index.entries) && old(index).front == old(index.front)
      ensures Answers(old(tailIndex) % BLOCK_SIZE != 0, old(OldestFinished()), old(Leeway()), old(|ring| < |index.entries|),
                      indexOk, spare != null, ok, index != old(index), |ring| - old(|ring|))
    {
      assert headIndex <= tailIndex && frontNext < |index.entries| && |ring| <= |index.entries|;
      hide RingLinked, Contents, Counters, Lists, Leeway, OldestFinished;
      var reuse := NextIsEmpty();
      if reuse {
        StartInNext();
        return true;
      }
      ok := HasLeeway();
      if !ok {
        return;
      }
      ok := MakeRoom(indexOk);
      if !ok || spare == null {
        return false;
      }
      StartInSpare(spare);
      return true;
    }

    /** There is a block for the next element. */
    method PrepareTail(indexOk: bool, spare: Block?<T>) returns (ok: bool)
      requires Valid()
      requires spare != null ==> spare !in ring && spare.Sized()
      modifies this`index, this`frontNext, this`slotsUsed, this`tailBlock, this`ring, this`first
      modifies index, ring, spare
      ensures if ok then Ready() else Valid()
      ensures index == old(index) || fresh(index)
      ensures forall b :: b in ring ==> b in old(ring) || b == spare
      ensures Moved(index == old(index), old(|index.entries|), old(frontNext), old(ring), old(first),
                    |index.entries|, frontNext, ring, first)
      ensures index != old(index) ==> old(index).entries == old(index.entries) && old(index).front == old(index.front)
      ensures Answers(old(tailIndex) % BLOCK_SIZE != 0, old(OldestFinished()), old(Leeway()), old(|ring| < |index.entries|),
                      indexOk, spare != null, ok, index != old(index), |ring| - old(|ring|))
    {
      ok := true;
      if tailIndex % BLOCK_SIZE == 0 {
        hide Valid, Ready, Moved, Leeway, OldestFinished;
        ok := StartBlock(indexOk, spare);
      } else {
        TailBlockExists();
      }
    }

    /** enqueue: a failure leaves the queue as it was, except perhaps for a larger index. */
    method Enqueue(x: T, indexOk: bool, spare: Block?<T>) returns (ok: bool)
      requires Valid()
      requires spare != null ==> spare !in ring && spare.Sized()
      modifies this, index, ring, spare
      ensures Valid() && (index == old(index) || fresh(index)) && forall b :: b in ring ==> b in old(ring) || b == spare
      ensures headIndex == old(headIndex) && finished == old(finished)
      ensures history == if ok then old(history) + [x] else old(history)
      ensures Queue() == if ok then old(Queue()) + [x] else old(Queue())
      ensures Moved(index == old(index), old(|index.entries|), old(frontNext), old(ring), old(first),
                    |index.entries|, frontNext, ring, first)
      ensures index != old(index) ==> old(index).entries == old(index.entries) && old(index).front == old(index.front)
      ensures Answers(old(tailIndex) % BLOCK_SIZE != 0, old(OldestFinished()), old(Leeway()), old(|ring| < |index.entries|),
                      indexOk, spare != null, ok, index != old(index), |ring| - old(|ring|))
    {
      hide Moved, Answers, Leeway, OldestFinished;
      ok := PrepareTail(indexOk, spare);
      if !ok {
        return;
      }
      assert tailBlock in ring;
      hide Holds, Lists;
      Store(x);
    }

    /** The atomic part of dequeue: the consumer becomes the one to move out this index. */
    method Claim() returns (i: nat)
      requires Valid() && headIndex < tailIndex
      modifies this`headIndex
      ensures Valid() && i == old(headIndex) && headIndex == i + 1
    {
      i := headIndex;
      headIndex := headIndex + 1;
    }

    lemma Unfinished(i: nat)
      requires Contents() && i !in finished
      ensures first <= i / BLOCK_SIZE
    {
    }

    /** The lookup of dequeue: base, offset and mask lead to the block that holds this index, from
        any header and front that see the ring. */
    method Locate(header: BlockIndex<T>, front: nat, ghost started: nat, i: nat) returns (block: Block<T>)
      requires Contents() && i !in finished
      requires Sees(header.entries, front, started, ring, first) && i / BLOCK_SIZE < started
      ensures 0 <= i / BLOCK_SIZE - first < |ring| && block == ring[i / BLOCK_SIZE - first]
    {
      Unfinished(i);
      StaleFrontFinds(header.entries, front, started, ring, first, i);
      hide Contents, Sees;
      var headBase := header.entries[front].base;
      var blockBase := i - i % BLOCK_SIZE;
      var offset := (blockBase - headBase) / BLOCK_SIZE;
      block := header.entries[(front + offset) % |header.entries|].block;
    }

    /** The rest of dequeue, any time after the claim and in any order: the element moved
        out is the one that was enqueued at this index. */
    method Finish(header: BlockIndex<T>, front: nat, ghost started: nat, i: nat) returns (x: T)
      requires Valid() && i < headIndex && i !in finished
      requires Sees(header.entries, front, started, ring, first) && i / BLOCK_SIZE < started
      modifies this`finished, ring`emptyFlags
      ensures Valid() && finished == old(finished) + {i}
      ensures x == history[i]
    {
      hide Sees, Lists;
      var block := Locate(header, front, started, i);
      ghost var j := i / BLOCK_SIZE - first;
      assert Holds(block.elements, block.emptyFlags, first + j, history, finished);
      assert SlotHolds(block.elements, block.emptyFlags, first + j, i % BLOCK_SIZE, history, finished);
      x := block.elements[i % BLOCK_SIZE];
      Mark(block, i);
    }

    /** dequeue with nobody in between: first in, first out. */
    method Dequeue() returns (r: Dequeued<T>)
      requires Valid()
      modifies this`headIndex, this`finished, ring`emptyFlags
      ensures Valid() && history == old(history)
      ensures if old(Queue()) == [] then r == Nothing && Queue() == []
              else r == Element(old(Queue())[0]) && Queue() == old(Queue())[1..]
    {
      if headIndex == tailIndex {
        return Nothing;
      }
      Unfinished(headIndex);
      AbreastSees(index.entries, index.front, first + |ring|, frontNext, ring, first);
      hide Lists, Sees, Contents, RingLinked, Abreast;
      var i := Claim();
      var x := Finish(index, index.front, first + |ring|, i);
      return Element(x);
    }

    /** set_empty, whose assertion that the flag is not yet set holds. */
    method Mark(block: Block<T>, i: nat)
      requires RingLinked() && Contents() && i !in finished
      requires 0 <= i / BLOCK_SIZE - first < |ring| && block == ring[i / BLOCK_SIZE - first]
      modifies this`finished, block`emptyFlags
      ensures Contents() && finished == old(finished) + {i}
    {
      assert SlotHolds(block.elements, block.emptyFlags, i / BLOCK_SIZE, i % BLOCK_SIZE, history, finished);
      assert !block.emptyFlags[BLOCK_SIZE - 1 - i % BLOCK_SIZE];
      block.SetEmpty(i % BLOCK_SIZE);
      finished := finished + {i};
      forall k | 0 <= k < |ring|
        ensures Holds(ring[k].elements, ring[k].emptyFlags, first + k, history, finished)
      {
        FinishHolds(ring[k].elements, old(ring[k].emptyFlags), ring[k].emptyFlags, first + k, history, old(finished), i);
      }
    }
  }

  /** Marking one slot affects the block of that index and no other. */
  lemma FinishHolds<T>(elements: seq<T>, flags: seq<bool>, flags': seq<bool>, number: nat, history: seq<T>,
                       finished: set<nat>, i: nat)
    requires Holds(elements, flags, number, history, finished)
    requires flags' == if i / BLOCK_SIZE == number then flags[BLOCK_SIZE - 1 - i % BLOCK_SIZE := true] else flags
    ensures Holds(elements, flags', number, history, finished + {i})
  {
    forall r | 0 <= r < BLOCK_SIZE
      ensures SlotHolds(elements, flags', number, r, history, finished + {i})
    {
      assert SlotHolds(elements, flags, number, r, history, finished);
    }
  }

  lemma OlderHolds<T>(elements: seq<T>, flags: seq<bool>, number: nat, history: seq<T>, x: T, finished: set<nat>)
    requires Holds(elements, flags, number, history, finished) && (number + 1) * BLOCK_SIZE <= |history|
    ensures Holds(elements, flags, number, history + [x], finished)
  {
    forall r | 0 <= r < BLOCK_SIZE
      ensures SlotHolds(elements, flags, number, r, history + [x], finished)
    {
      assert SlotHolds(elements, flags, number, r, history, finished);
    }
  }

  // ---- Lookups in flight ----

  // What a consumer has loaded: a header, and its front when started blocks had been started.
  datatype Sight<T> = Sight(header: BlockIndex<T>, front: nat, started: nat)

  /** A producer with consumers in the middle of their lookups. Between its loads of the header and of
      the front, and before it uses them, the producer may go on for as long as it likes, replacing the
      index any number of times. */
  class Shared<T> {
    const producer: ExplicitProducer<T>
    ghost var retired: map<BlockIndex<T>, nat> // the headers replaced, and how many blocks had been started by then
    ghost var sights: set<Sight<T>>

    constructor (producer: ExplicitProducer<T>)
      requires producer.Valid()
      ensures this.producer == producer && Valid() && sights == {} && retired == map[]
    {
      this.producer := producer;
      retired, sights := map[], {};
    }

    /** In the index in use each front loaded is where it was left; in the others it sees the ring. */
    ghost predicate Seen()
      reads this, producer, producer.index, retired.Keys
    {
      && producer.index !in retired
      && (forall h :: h in retired ==> Sees(h.entries, h.front, retired[h], producer.ring, producer.first))
      && (forall s :: s in sights ==> SeenBy(s))
    }

    ghost predicate SeenBy(s: Sight<T>)
      reads this, producer, producer.index, retired.Keys
    {
      if s.header == producer.index then
        Abreast(s.front, s.started, producer.frontNext, |producer.index.entries|, producer.first, producer.first + |producer.ring|)
      else s.header in retired && Sees(s.header.entries, s.front, s.started, producer.ring, producer.first)
    }

    ghost predicate Valid()
      reads this, producer, producer.index, producer.ring, retired.Keys
    {
      producer.Valid() && Seen()
    }

    /** The header has the block of index i, or had it when it was replaced. */
    ghost predicate Covers(header: BlockIndex<T>, i: nat)
      reads this, producer
    {
      if header == producer.index then i / BLOCK_SIZE < producer.first + |producer.ring|
      else header in retired && i / BLOCK_SIZE < retired[header]
    }

    /** What sees the ring from the headers replaced; the producer does not touch these. */
    ghost predicate SeenIn(was: BlockIndex<T>, ring: seq<Block<T>>, first: nat)
      reads this`retired, this`sights, retired.Keys
    {
      && was !in retired
      && (forall h :: h in retired ==> Sees(h.entries, h.front, retired[h], ring, first))
      && (forall s :: s in sights ==> s.header == was || s.header in retired)
      && (forall s :: s in sights && s.header != was ==> Sees(s.header.entries, s.front, s.started, ring, first))
    }

    /** What sees the ring from the header in use, which had these entries and this front. */
    ghost predicate HeldIn(was: BlockIndex<T>, entries: seq<Entry<T>>, front: nat, next: nat, ring: seq<Block<T>>, first: nat)
      reads this`sights
    {
      && (ring != [] ==> Sees(entries, front, first + |ring|, ring, first))
      && (forall s :: s in sights && s.header == was ==>
            && Sees(entries, s.front, s.started, ring, first)
            && Abreast(s.front, s.started, next, |entries|, first, first + |ring|))
    }

    /** What is seen in the index in use is seen in it for good. */
    lemma SeenForGood()
      requires Valid()
      ensures SeenIn(producer.index, producer.ring, producer.first)
      ensures HeldIn(producer.index, producer.index.entries, producer.index.front, producer.frontNext, producer.ring, producer.first)
      ensures forall s :: s in sights ==> Sees(s.header.entries, s.front, s.started, producer.ring, producer.first)
    {
      var p := producer;
      if p.ring != [] {
        AbreastSees(p.index.entries, p.index.front, p.first + |p.ring|, p.frontNext, p.ring, p.first);
      }
      forall s | s in sights
        ensures (s.header == p.index || s.header in retired) && Sees(s.header.entries, s.front, s.started, p.ring, p.first)
        ensures s.header == p.index ==> SeenBy(s)
      {
        assert SeenBy(s);
        OneSeen(s);
      }
      hide ExplicitProducer.Valid, Sees, Abreast;
    }

    lemma OneSeen(s: Sight<T>)
      requires producer.Valid() && SeenBy(s)
      ensures s.header == producer.index || s.header in retired
      ensures Sees(s.header.entries, s.front, s.started, producer.ring, producer.first)
    {
      hide Sees;
      var p := producer;
      if s.header == p.index {
        AbreastSees(p.index.entries, s.front, s.started, p.frontNext, p.ring, p.first);
      }
    }

    /** enqueue, as far as the producer is concerned. */
    method Append(x: T, indexOk: bool, spare: Block?<T>) returns (ok: bool)
      requires producer.Valid() && SeenIn(producer.index, producer.ring, producer.first)
      requires HeldIn(producer.index, producer.index.entries, producer.index.front, producer.frontNext, producer.ring, producer.first)
      requires spare != null ==> spare !in producer.ring && spare.Sized()
      modifies producer, producer.index, producer.ring, spare
      ensures producer.Valid() && producer.index !in retired
      ensures SeenIn(old(producer.index), old(producer.ring), old(producer.first))
      ensures HeldIn(old(producer.index), old(producer.index.entries), old(producer.index.front), old(producer.frontNext),
                     old(producer.ring), old(producer.first))
      ensures producer.index != old(producer.index) ==>
                old(producer.index).entries == old(producer.index.entries)
                && old(producer.index).front == old(producer.index.front)
      ensures Moved(producer.index == old(producer.index), old(|producer.index.entries|), old(producer.frontNext),
                    old(producer.ring), old(producer.first),
                    |producer.index.entries|, producer.frontNext, producer.ring, producer.first)
      ensures producer.history == if ok then old(producer.history) + [x] else old(producer.history)
      ensures producer.headIndex == old(producer.headIndex) && producer.finished == old(producer.finished)
      ensures Answers(old(producer.tailIndex) % BLOCK_SIZE != 0, old(producer.OldestFinished()), old(producer.Leeway()),
                      old(|producer.ring| < |producer.index.entries|), indexOk, spare != null,
                      ok, producer.index != old(producer.index), |producer.ring| - old(|producer.ring|))
    {
      hide SeenIn, HeldIn, Moved, Answers, ExplicitProducer.Valid, ExplicitProducer.Queue,
           ExplicitProducer.Leeway, ExplicitProducer.OldestFinished;
      Unretired(producer.index, producer.ring, producer.first);
      ok := producer.Enqueue(x, indexOk, spare);
    }

    /** enqueue, with consumers in the middle of their lookups. */
    method Enqueue(x: T, indexOk: bool, spare: Block?<T>) returns (ok: bool)
      requires Valid()
      requires spare != null ==> spare !in producer.ring && spare.Sized()
      modifies this, producer, producer.index, producer.ring, spare
      ensures Valid() && sights == old(sights)
      ensures producer.history == if ok then old(producer.history) + [x] else old(producer.history)
      ensures producer.headIndex == old(producer.headIndex) && producer.finished == old(producer.finished)
      ensures Answers(old(producer.tailIndex) % BLOCK_SIZE != 0, old(producer.OldestFinished()), old(producer.Leeway()),
                      old(|producer.ring| < |producer.index.entries|), indexOk, spare != null,
                      ok, producer.index != old(producer.index), |producer.ring| - old(|producer.ring|))
      ensures forall h, i: nat | h in old(retired.Keys + {producer.index}) :: old(Covers(h, i)) ==> Covers(h, i)
    {
      ghost var was, entries, front := producer.index, producer.index.entries, producer.index.front;
      ghost var next, ring, first := producer.frontNext, producer.ring, producer.first;
      SeenForGood();
      hide Seen, SeenIn, HeldIn, Moved, Answers, ExplicitProducer.Valid, ExplicitProducer.Queue,
           ExplicitProducer.Leeway, ExplicitProducer.OldestFinished;
      ok := Append(x, indexOk, spare);
      Follow(was, entries, front, next, ring, first);
    }

    lemma Unretired(was: BlockIndex<T>, ring: seq<Block<T>>, first: nat)
      requires SeenIn(was, ring, first)
      ensures was !in retired
    {
    }

    /** Nothing the producer has done makes anything unseen. */
    ghost method Follow(was: BlockIndex<T>, entries: seq<Entry<T>>, front: nat, next: nat, ring: seq<Block<T>>, first: nat)
      requires producer.Valid() && producer.index !in retired
      requires SeenIn(was, ring, first) && HeldIn(was, entries, front, next, ring, first)
      requires producer.index != was ==> was.entries == entries && was.front == front
      requires var p := producer;
               Moved(p.index == was, |entries|, next, ring, first, |p.index.entries|, p.frontNext, p.ring, p.first)
      modifies this`retired
      ensures Seen()
      ensures retired == if producer.index == was then old(retired) else old(retired)[was := first + |ring|]
      ensures first + |ring| <= producer.first + |producer.ring|
    {
      var p := producer;
      assert p.index != was ==> ring != [] && Turned(ring, first, p.ring, p.first);
      assert Turned(ring, first, p.ring, p.first) && |p.ring| <= |p.index.entries|;
      if p.index != was {
        retired := retired[was := first + |ring|];
      }
      hide Sees, Abreast, Turned, ExplicitProducer.Valid;
      forall h | h in retired
        ensures Sees(h.entries, h.front, retired[h], p.ring, p.first)
      {
        SeesTurned(h.entries, h.front, retired[h], ring, first, p.ring, p.first);
      }
      forall s | s in sights
        ensures SeenBy(s)
      {
        if s.header == was == p.index {
          AbreastMoved(s.front, s.started, |entries|, next, ring, first, p.frontNext, p.ring, p.first);
        } else {
          SeesTurned(s.header.entries, s.front, s.started, ring, first, p.ring, p.first);
        }
      }
    }

    /** A consumer claims the next index. */
    method Claim() returns (i: nat)
      requires Valid() && producer.headIndex < producer.tailIndex
      modifies producer`headIndex
      ensures Valid() && i == old(producer.headIndex) && producer.headIndex == i + 1
    {
      i := producer.Claim();
    }

    /** Then it loads the header, */
    method LoadIndex(i: nat) returns (header: BlockIndex<T>)
      requires Valid() && i < producer.headIndex
      ensures header == producer.index && Covers(header, i)
    {
      header := producer.index;
    }

    /** and later that header's front, whether or not the header is still in use. */
    method LoadFront(header: BlockIndex<T>, i: nat) returns (front: nat, ghost s: Sight<T>)
      requires Valid() && Covers(header, i) && i !in producer.finished
      modifies this`sights
      ensures Valid() && sights == old(sights) + {s}
      ensures s.header == header && s.front == front && i / BLOCK_SIZE < s.started
    {
      front := header.front;
      var p := producer;
      s := Sight(header, front, if header == p.index then p.first + |p.ring| else retired[header]);
      p.Unfinished(i);
      hide ExplicitProducer.Contents, ExplicitProducer.RingLinked, Sees, Lists;
      sights := sights + {s};
    }

    /** And later still it finishes the dequeue: with what it loaded then it finds, and takes out, the
        element that was enqueued at its index. */
    method Finish(header: BlockIndex<T>, front: nat, ghost s: Sight<T>, i: nat) returns (x: T)
      requires Valid() && i < producer.headIndex && i !in producer.finished
      requires s in sights && s.header == header && s.front == front && i / BLOCK_SIZE < s.started
      modifies producer`finished, producer.ring`emptyFlags
      ensures Valid() && producer.finished == old(producer.finished) + {i}
      ensures x == producer.history[i]
    {
      SeenForGood();
      hide ExplicitProducer.Valid, Sees, Abreast;
      x := producer.Finish(header, front, s.started, i);
    }
  }
}
