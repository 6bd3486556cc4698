/** The block index of an implicit producer (archive/other_src/concurrentqueue.h:2886-3013):
    a circular array of pointers to entries, doubled when full, into which the producer
    inserts one entry a block and from which consumers remove blocks in any order. */
module ImplicitIndex {
  import opened Slots

  const BLOCK_SIZE: nat := 32

  // No block starts at an odd index.
  const INVALID_BLOCK_BASE: int := 1

  type BlockId = nat

  datatype Pointer = Null | To(block: BlockId)

  class BlockIndexEntry {
    var key: int
    var value: Pointer

    // The value is left uninitialised.
    constructor (value: Pointer)
      ensures key == INVALID_BLOCK_BASE
    {
      key := INVALID_BLOCK_BASE;
      this.value := value;
    }
  }

  // BlockIndexHeader; a header refers to the entries of its predecessors and to its own.
  class BlockIndexHeader {
    const index: seq<BlockIndexEntry>
    var tail: nat

    constructor (index: seq<BlockIndexEntry>, tail: nat)
      ensures this.index == index && this.tail == tail
    {
      this.index := index;
      this.tail := tail;
    }
  }

  ghost predicate Distinct(index: seq<BlockIndexEntry>) {
    forall i, j :: 0 <= i < j < |index| ==> index[i] != index[j]
  }

  /** The entry for block n carries the base and the block if n is live; and if it was inserted
      and has a block, then n is live. */
  ghost predicate EntryInv(e: BlockIndexEntry, n: int, pending: bool, live: map<nat, BlockId>)
    reads e
  {
    && (n >= 0 && n in live ==> e.key == n * BLOCK_SIZE && e.value == To(live[n]))
    && (!pending && e.key != INVALID_BLOCK_BASE && e.value != Null ==> n >= 0 && n in live)
  }

  /** The next entry is the oldest one, or, if that is not free, a new one in a larger index. */
  ghost predicate Inserted(window: seq<BlockIndexEntry>, free: bool, window': seq<BlockIndexEntry>) {
    && window != [] && window' != []
    && ((!free && window <= window'[1..]) || window' == [window[|window| - 1]] + window[..|window| - 1])
  }

  class ImplicitProducer {
    var blockIndex: BlockIndexHeader
    var nextBlockIndexCapacity: nat

    ghost var window: seq<BlockIndexEntry> // the entries of the index, newest first
    ghost var begun: nat                   // how many blocks have an entry, the last one perhaps without a block yet
    ghost var pending: bool                // whether the last one has no block yet
    ghost var live: map<nat, BlockId>      // the blocks in the index, by number

    ghost predicate Shape()
      reads this, blockIndex
    {
      && blockIndex.tail < |blockIndex.index| == |window|
      && 1 < |window|
      && nextBlockIndexCapacity == 2 * |window|
      && (forall d :: 0 <= d < |window| ==> window[d] == blockIndex.index[Slot(blockIndex.tail, d, |window|)])
      && Distinct(window)
    }

    /** Every live block is within reach of the index. */
    ghost predicate InReach()
      reads this`window, this`begun, this`pending, this`live
    {
      && (pending ==> begun > 0 && begun - 1 !in live)
      && (forall n :: n in live ==> begun - |window| <= n < begun)
    }

    ghost predicate Entries()
      reads this`window, this`begun, this`pending, this`live, window
    {
      forall d :: 0 <= d < |window| ==> EntryInv(window[d], begun - 1 - d, pending && d == 0, live)
    }

    /** The newest entries carry their bases, which is what lookups start from. */
    ghost predicate Anchored()
      reads this`window, this`begun, this`pending, window
    {
      && (begun > 0 && window != [] ==> window[0].key == (begun - 1) * BLOCK_SIZE)
      && (pending && begun > 1 && |window| > 1 ==> window[1].key == (begun - 2) * BLOCK_SIZE)
    }

    ghost predicate Valid()
      reads this, blockIndex, window
    {
      Shape() && InReach() && Entries() && Anchored()
    }

    /** The first index, of IMPLICIT_INITIAL_INDEX_SIZE entries. */
    constructor (initialSize: nat, garbage: Pointer)
      requires initialSize > 1
      ensures Valid() && begun == 0 && !pending && live == map[]
      ensures fresh(blockIndex) && fresh(window)
    {
      var index := NewEntries(initialSize, garbage);
      blockIndex := new BlockIndexHeader(index, initialSize - 1);
      nextBlockIndexCapacity := 2 * initialSize;
      begun, pending, live := 0, false, map[];
      window := seq(initialSize, d requires 0 <= d < initialSize => index[initialSize - 1 - d]);
    }

    /** The entries of a new header. garbage is what the allocated memory holds where the
        values are. */
    static method NewEntries(count: nat, garbage: Pointer) returns (entries: seq<BlockIndexEntry>)
      ensures |entries| == count && Distinct(entries) && fresh(entries)
      ensures forall k :: 0 <= k < count ==> entries[k].key == INVALID_BLOCK_BASE
    {
      entries := [];
      while |entries| < count
        invariant |entries| <= count && Distinct(entries) && fresh(entries)
        invariant forall k :: 0 <= k < |entries| ==> entries[k].key == INVALID_BLOCK_BASE
      {
        var entry := new BlockIndexEntry(garbage);
        entries := entries + [entry];
      }
    }

    /** The pointers of the current index, from the oldest entry to the newest. */
    method Unrolled() returns (index: seq<BlockIndexEntry>)
      requires Shape()
      ensures |index| == |window|
      ensures forall d :: 0 <= d < |window| ==> index[|window| - 1 - d] == window[d]
    {
      var prev, size := blockIndex, |blockIndex.index|;
      var prevPos := prev.tail;
      index := [];
      while index == [] || prevPos != prev.tail
        invariant |index| <= size
        invariant prevPos == Slot(prev.tail, size - |index|, size)
        invariant forall k :: 0 <= k < |index| ==> index[k] == window[size - 1 - k]
        decreases size - |index|
      {
        NextSlot(prevPos, size);
        prevPos := (prevPos + 1) % size;
        index := index + [prev.index[prevPos]];
      }
      assert |index| == size;
    }

    /** new_block_index on a producer that has an index: the entries stay what they are and
        as many again, unused, follow behind the oldest. */
    method NewBlockIndex(garbage: Pointer)
      requires Shape()
      modifies this`blockIndex, this`nextBlockIndexCapacity, this`window
      ensures Shape() && fresh(blockIndex) && |window| == 2 * |old(window)|
      ensures window[..|old(window)|] == old(window)
      ensures forall d :: |old(window)| <= d < |window| ==> window[d].key == INVALID_BLOCK_BASE && fresh(window[d])
    {
      var prevCapacity := |blockIndex.index|;
      var index := Unrolled();
      var entries := NewEntries(prevCapacity, garbage);
      blockIndex := new BlockIndexHeader(index + entries, prevCapacity - 1);
      nextBlockIndexCapacity := 2 * nextBlockIndexCapacity;
      ghost var more := seq(prevCapacity, d requires 0 <= d < prevCapacity => entries[prevCapacity - 1 - d]);
      assert Distinct(more);
      window := window + more;
    }
  
    /** The next slot takes the next block: it must hold no live block. */
    method TakeSlot(idxEntry: BlockIndexEntry, newTail: nat, blockStartIndex: nat)
      requires Valid() && !pending && blockStartIndex == begun * BLOCK_SIZE
      requires newTail == (blockIndex.tail + 1) % |blockIndex.index| && idxEntry == window[|window| - 1]
      requires idxEntry.key == INVALID_BLOCK_BASE || idxEntry.value == Null
      modifies this`begun, this`pending, this`window, blockIndex, idxEntry`key
      ensures Valid() && pending && begun == old(begun) + 1
      ensures window == [idxEntry] + old(window)[..|window| - 1]
    {
      NextSlot(blockIndex.tail, |blockIndex.index|);
      idxEntry.key := blockStartIndex;
      blockIndex.tail := newTail;
      begun, pending := begun + 1, true;
      window := [idxEntry] + window[..|window| - 1];
      forall d | 0 < d < |window|
        ensures EntryInv(window[d], begun - 1 - d, false, live)
      {
        assert window[d] == old(window)[d - 1];
      }
    }

    /** The slot the tail moves to next holds the oldest entry. */
    method NextEntry() returns (newTail: nat, idxEntry: BlockIndexEntry)
      requires Valid()
      ensures newTail == (blockIndex.tail + 1) % |blockIndex.index| && idxEntry == window[|window| - 1]
    {
      NextSlot(blockIndex.tail, |blockIndex.index|);
      newTail := (blockIndex.tail + 1) % |blockIndex.index|;
      idxEntry := blockIndex.index[newTail];
      assert idxEntry == window[|window| - 1];
    }

    /** A larger index keeps everything found, and its next slot was never used. */
    method Grow(garbage: Pointer)
      requires Valid() && !pending
      modifies this`blockIndex, this`nextBlockIndexCapacity, this`window
      ensures Valid() && fresh(blockIndex) && |window| > |old(window)|
      ensures old(window) <= window
      ensures window[|window| - 1].key == INVALID_BLOCK_BASE && fresh(window[|window| - 1])
    {
      NewBlockIndex(garbage);
      forall d | 0 <= d < |window|
        ensures EntryInv(window[d], begun - 1 - d, pending && d == 0, live)
      {
        if d < |old(window)| {
          assert window[d] == old(window)[d];
        }
      }
    }

    /** The slot for the next block, in a larger index if this one is full. indexOk says
        whether a larger index may and can be allocated, if one is needed. */
    method FindSlot(indexOk: bool, garbage: Pointer) returns (ok: bool, newTail: nat, idxEntry: BlockIndexEntry)
      requires Valid() && !pending
      modifies this`blockIndex, this`nextBlockIndexCapacity, this`window
      ensures Valid() && (blockIndex == old(blockIndex) || fresh(blockIndex))
      ensures newTail == (blockIndex.tail + 1) % |blockIndex.index| && idxEntry == window[|window| - 1]
      ensures ok <==> idxEntry.key == INVALID_BLOCK_BASE || idxEntry.value == Null
      ensures ok <== indexOk || begun < |window| || begun - |window| !in live
      ensures !ok ==> unchanged(this)
      ensures blockIndex == old(blockIndex) ==> window == old(window)
      ensures blockIndex != old(blockIndex) ==>
                && ok && |old(window)| < |window| && old(window) <= window && fresh(idxEntry)
                && old(window[|window| - 1].key != INVALID_BLOCK_BASE && window[|window| - 1].value != Null)
    {
      newTail, idxEntry := NextEntry();
      ok := idxEntry.key == INVALID_BLOCK_BASE || idxEntry.value == Null;
      if !ok && indexOk {
        Grow(garbage);
        newTail, idxEntry := NextEntry();
        assert idxEntry.key == INVALID_BLOCK_BASE;    // the assertion in insert_block_index_entry
        ok := true;
      }
    }

    /** insert_block_index_entry for the block that starts at blockStartIndex. The entries of
        the other blocks stay the same objects. */
    method Insert(blockStartIndex: nat, indexOk: bool, garbage: Pointer) returns (ok: bool, idxEntry: BlockIndexEntry)
      requires Valid() && !pending && blockStartIndex == begun * BLOCK_SIZE
      modifies this`blockIndex, this`nextBlockIndexCapacity, this`window, this`begun, this`pending
      modifies blockIndex, window[|window| - 1..]`key
      ensures Valid() && pending == ok && begun == old(begun) + if ok then 1 else 0
      ensures ok <== indexOk || old(begun) < |window| || old(begun) - |window| !in live
      ensures ok ==> idxEntry == window[0]
      ensures !ok ==> unchanged(this) && unchanged(blockIndex) && unchanged(window)
      ensures ok ==> Inserted(old(window), old(window[|window| - 1].value == Null), window)
      ensures ok ==> forall d :: 0 <= d < old(|window|) && old(window)[d] != idxEntry ==>
                old(window)[d].key == old(window[d].key)
      ensures blockIndex == old(blockIndex) || (fresh(blockIndex) && old(blockIndex).tail == old(blockIndex.tail))
    {
      var newTail: nat;
      ok, newTail, idxEntry := FindSlot(indexOk, garbage);
      if ok {
        TakeSlot(idxEntry, newTail, blockStartIndex);
      }
    }

    /** The block was allocated: idxEntry->value.store(newBlock). */
    method Publish(idxEntry: BlockIndexEntry, block: BlockId)
      requires Valid() && pending && idxEntry == window[0]
      modifies this`pending, this`live, idxEntry`value
      ensures Valid() && !pending && live == old(live)[begun - 1 := block]
    {
      idxEntry.value := To(block);
      pending, live := false, live[begun - 1 := block];
    }

    /** The block could not be allocated: rewind_block_index_tail and value.store(nullptr). */
    method Rewind(idxEntry: BlockIndexEntry)
      requires Valid() && pending && idxEntry == window[0]
      modifies this`begun, this`pending, this`window, blockIndex, idxEntry`value
      ensures Valid() && !pending && live == old(live) && begun == old(begun) - 1
      ensures window == old(window)[1..] + [idxEntry] && idxEntry.value == Null
    {
      SlotIsMask(blockIndex.tail, 1, |blockIndex.index|);
      blockIndex.tail := (blockIndex.tail - 1) % |blockIndex.index|;
      idxEntry.value := Null;
      begun, pending := begun - 1, false;
      window := window[1..] + [window[0]];
    }

    /** A consumer emptied block n: entry->value.store(nullptr). */
    method Free(entry: BlockIndexEntry, ghost n: nat)
      requires Valid() && n in live && entry == window[begun - 1 - n]
      modifies this`live, entry`value
      ensures Valid() && live == old(live) - {n} && entry.value == Null
    {
      entry.value := Null;
      live := live - {n};
    }

    /** get_block_index_entry_for_index: for every index in a live block the assertions of
        the code hold, and the entry is the one of that block. It holds also between Insert
        and Publish or Rewind. */
    method Lookup(i: nat) returns (entry: BlockIndexEntry)
      requires Valid() && i / BLOCK_SIZE in live
      ensures entry.key == i - i % BLOCK_SIZE && entry.value == To(live[i / BLOCK_SIZE])
      ensures 0 <= begun - 1 - i / BLOCK_SIZE < |window| && entry == window[begun - 1 - i / BLOCK_SIZE]
    {
      var index := i - i % BLOCK_SIZE;
      var tail := blockIndex.tail;
      assert window[0] == blockIndex.index[tail];
      var tailBase := blockIndex.index[tail].key;
      assert tailBase != INVALID_BLOCK_BASE;
      assert EntryInv(window[begun - 1 - i / BLOCK_SIZE], i / BLOCK_SIZE, false, live);
      var offset := (index - tailBase) / BLOCK_SIZE;
      SlotIsMask(tail, -offset, |blockIndex.index|);
      entry := blockIndex.index[(tail + offset) % |blockIndex.index|];
      assert entry == window[-offset];
    }
  }

  // ---- Lookups in flight ----

  /** The blocks that still have an entry with their key: from oldest on all those begun, and one whose
      insertion was undone. */
  ghost predicate Keyed(n: int, begun: nat, oldest: nat, rewound: bool) {
    oldest <= n && (n < begun || (rewound && n == begun))
  }

  /** The entry of a block. */
  ghost function EntryOf(window: seq<BlockIndexEntry>, begun: nat, n: nat): BlockIndexEntry
    requires begun - |window| <= n <= begun && window != []
  {
    if n == begun then window[|window| - 1] else window[begun - 1 - n]
  }

  /** There are no more of them than entries. */
  ghost predicate Room(window: seq<BlockIndexEntry>, begun: nat, oldest: nat, rewound: bool) {
    window != [] && oldest <= begun <= oldest + |window| && (rewound ==> begun < oldest + |window|)
  }

  /** From this tail of a header, which has newest for its newest block, each of them is at its place. */
  ghost predicate Sees(index: seq<BlockIndexEntry>, tail: nat, newest: int,
                       window: seq<BlockIndexEntry>, begun: nat, oldest: nat, rewound: bool) {
    && Room(window, begun, oldest, rewound)
    && tail < |index| && newest < oldest + |index|
    && (newest >= oldest ==> Keyed(newest, begun, oldest, rewound))
    && (forall n: nat :: oldest <= n <= newest ==> index[Slot(tail, newest - n, |index|)] == EntryOf(window, begun, n))
  }

  /** An insertion takes the entry of the oldest block, or of the one undone, or a new one. */
  lemma SeesInsert(index: seq<BlockIndexEntry>, tail: nat, newest: int, window: seq<BlockIndexEntry>, begun: nat,
                   oldest: nat, rewound: bool, window': seq<BlockIndexEntry>, begun': nat, oldest': nat)
    requires Sees(index, tail, newest, window, begun, oldest, rewound)
    requires Inserted(window, rewound, window')
    requires oldest <= oldest' < begun' == begun + 1 <= oldest' + |window'|
    ensures Sees(index, tail, newest, window', begun', oldest', false)
  {
    forall n: nat | oldest' <= n <= newest
      ensures EntryOf(window', begun', n) == EntryOf(window, begun, n)
    {
      assert n < begun ==> window'[begun - n] == window[begun - 1 - n];
    }
  }

  lemma SeesRewind(index: seq<BlockIndexEntry>, tail: nat, newest: int, window: seq<BlockIndexEntry>, begun: nat,
                   oldest: nat, window': seq<BlockIndexEntry>, begun': nat)
    requires Sees(index, tail, newest, window, begun, oldest, false)
    requires oldest <= begun' == begun - 1 && window' == window[1..] + [window[0]]
    ensures Sees(index, tail, newest, window', begun', oldest, true)
  {
    forall n: nat | oldest <= n <= newest
      ensures EntryOf(window', begun', n) == EntryOf(window, begun, n)
    {
      assert n < begun' ==> window'[begun' - 1 - n] == window[begun - 1 - n];
    }
  }

  // What a consumer has loaded: a header, and its tail when its newest entry was that of this block.
  datatype Sight = Sight(header: BlockIndexHeader, tail: nat, newest: int)

  /** A producer with consumers in the middle of their lookups. Between the loads of the header, of its
      tail and of the key there, blocks may be inserted, rewound and freed, and the index replaced, any
      number of times. */
  class Shared {
    const producer: ImplicitProducer
    ghost var oldest: nat
    ghost var rewound: bool
    ghost var retired: map<BlockIndexHeader, int> // the headers replaced, and the newest block they have
    ghost var sights: set<Sight>

    constructor (producer: ImplicitProducer)
      requires producer.Valid() && producer.begun == 0 && !producer.pending && producer.live == map[]
      ensures this.producer == producer && Valid() && sights == {} && retired == map[]
    {
      this.producer := producer;
      oldest, rewound, retired, sights := 0, false, map[], {};
    }

    ghost predicate KeysFrom(first: nat, undone: bool)
      reads producer, producer.window
    {
      var p := producer;
      && Room(p.window, p.begun, first, undone)
      && (p.pending ==> first < p.begun && !undone)
      && (forall n :: n in p.live ==> first <= n)
      && (forall d :: 0 <= d < p.begun - first ==> p.window[d].key == (p.begun - 1 - d) * BLOCK_SIZE)
      && (undone ==> p.window[|p.window| - 1].key == p.begun * BLOCK_SIZE && p.window[|p.window| - 1].value == Null)
    }

    ghost predicate Keys()
      reads this`oldest, this`rewound, producer, producer.window
    {
      KeysFrom(oldest, rewound)
    }

    /** What was loaded from any header replaced, or from this one, is good for these entries. */
    ghost predicate SeenIn(current: BlockIndexHeader, window: seq<BlockIndexEntry>, begun: nat, first: nat, undone: bool)
      reads this`retired, this`sights, retired.Keys
    {
      && current !in retired
      && (forall h :: h in retired ==> Sees(h.index, h.tail, retired[h], window, begun, first, undone))
      && (forall s :: s in sights ==>
            (s.header == current || s.header in retired) && Sees(s.header.index, s.tail, s.newest, window, begun, first, undone))
    }

    ghost predicate Seen()
      reads this, producer, retired.Keys
    {
      SeenIn(producer.blockIndex, producer.window, producer.begun, oldest, rewound)
    }

    ghost predicate Valid()
      reads this, producer, producer.blockIndex, producer.window, retired.Keys
    {
      producer.Valid() && Keys() && Seen()
    }

    /** The index in use has the block, or had it when it was replaced. */
    ghost predicate Covers(header: BlockIndexHeader, n: nat)
      reads this, producer
    {
      header == producer.blockIndex || (header in retired && n <= retired[header])
    }

    lemma Unfolded()
      requires Valid()
      ensures producer.blockIndex !in retired && oldest <= producer.begun <= oldest + |producer.window| && producer.window != []
      ensures SeenIn(producer.blockIndex, producer.window, producer.begun, oldest, rewound)
      ensures Sees(producer.blockIndex.index, producer.blockIndex.tail, producer.begun - 1, producer.window, producer.begun, oldest, rewound)
      ensures forall n :: n in producer.live ==> oldest <= n < producer.begun
      ensures rewound ==> producer.window[|producer.window| - 1].value == Null
      ensures forall d :: 0 <= d < |producer.window| && d < producer.begun - oldest ==>
                producer.window[d].key == (producer.begun - 1 - d) * BLOCK_SIZE
    {
    }

    method LoadHeader(ghost n: nat) returns (header: BlockIndexHeader)
      requires Valid() && n in producer.live
      ensures header == producer.blockIndex && Covers(header, n)
    {
      header := producer.blockIndex;
    }

    method LoadTail(header: BlockIndexHeader, ghost n: nat) returns (tail: nat, ghost s: Sight)
      requires Valid() && n in producer.live && Covers(header, n)
      modifies this`sights
      ensures Valid() && sights == old(sights) + {s}
      ensures s.header == header && s.tail == tail && n <= s.newest
    {
      Unfolded();
      hide Sees, Room, ImplicitProducer.Valid, ImplicitProducer.InReach;
      tail := header.tail;
      s := Sight(header, tail, if header == producer.blockIndex then producer.begun - 1 else retired[header]);
      sights := sights + {s};
    }

    /** The key at that tail cannot change before the block is freed. */
    method LoadKey(header: BlockIndexHeader, tail: nat, ghost s: Sight, ghost n: nat) returns (tailBase: int)
      requires Valid() && n in producer.live
      requires s in sights && s.header == header && s.tail == tail && n <= s.newest
      ensures tailBase == s.newest * BLOCK_SIZE && tailBase != INVALID_BLOCK_BASE
    {
      assert header.index[Slot(tail, s.newest - s.newest, |header.index|)] == EntryOf(producer.window, producer.begun, s.newest);
      tailBase := header.index[tail].key;
    }

    /** With what was loaded then, the entry found now is the one of the block. */
    method Find(header: BlockIndexHeader, tail: nat, tailBase: int, ghost s: Sight, i: nat) returns (entry: BlockIndexEntry)
      requires Valid() && i / BLOCK_SIZE in producer.live
      requires s in sights && s.header == header && s.tail == tail && i / BLOCK_SIZE <= s.newest
      requires tailBase == s.newest * BLOCK_SIZE
      ensures entry.key == i - i % BLOCK_SIZE && entry.value == To(producer.live[i / BLOCK_SIZE])
      ensures 0 <= producer.begun - 1 - i / BLOCK_SIZE < |producer.window| && entry == producer.window[producer.begun - 1 - i / BLOCK_SIZE]
    {
      ghost var n := i / BLOCK_SIZE;
      var index := i - i % BLOCK_SIZE;
      var offset := (index - tailBase) / BLOCK_SIZE;
      assert -offset == s.newest - n;
      SlotIsMask(tail, -offset, |header.index|);
      entry := header.index[(tail + offset) % |header.index|];
      assert entry == EntryOf(producer.window, producer.begun, n);
      assert EntryInv(producer.window[producer.begun - 1 - n], n, false, producer.live);
    }

    method Insert(blockStartIndex: nat, indexOk: bool, garbage: Pointer) returns (ok: bool, idxEntry: BlockIndexEntry)
      requires Valid() && !producer.pending && blockStartIndex == producer.begun * BLOCK_SIZE
      modifies this`oldest, this`rewound, this`retired, producer, producer.blockIndex
      modifies producer.window[|producer.window| - 1..]`key
      ensures Valid() && sights == old(sights)
      ensures producer.pending == ok && producer.begun == old(producer.begun) + if ok then 1 else 0
      ensures ok ==> idxEntry == producer.window[0]
      ensures producer.live == old(producer.live)
      ensures retired == if producer.blockIndex == old(producer.blockIndex) then old(retired)
                         else old(retired)[old(producer.blockIndex) := old(producer.begun) - 1]
    {
      ghost var was, tail, window := producer.blockIndex, producer.blockIndex.tail, producer.window;
      ghost var free := window[|window| - 1].value == Null;
      hide Seen, Keys, Inserting, ImplicitProducer.Valid;
      ok, idxEntry := InsertOnly(blockStartIndex, indexOk, garbage);
      if ok {
        Follow(was, tail, window, free);
      }
    }

    method InsertOnly(blockStartIndex: nat, indexOk: bool, garbage: Pointer) returns (ok: bool, idxEntry: BlockIndexEntry)
      requires Valid() && !producer.pending && blockStartIndex == producer.begun * BLOCK_SIZE
      modifies producer, producer.blockIndex, producer.window[|producer.window| - 1..]`key
      ensures producer.Valid() && producer.pending == ok && producer.begun == old(producer.begun) + if ok then 1 else 0
      ensures ok ==> idxEntry == producer.window[0]
      ensures producer.live == old(producer.live)
      ensures ok ==> Inserting(old(producer.blockIndex), old(producer.blockIndex.tail), old(producer.window),
                               old(producer.window[|producer.window| - 1].value == Null))
      ensures !ok ==> Keys() && Seen() && producer.blockIndex == old(producer.blockIndex)
    {
      ghost var was, tail, window := producer.blockIndex, producer.blockIndex.tail, producer.window;
      ghost var free := window[|window| - 1].value == Null;
      Unfolded();
      hide Sees, Seen, SeenIn, Keys, KeysFrom, ImplicitProducer.Valid, Inserted;
      ok, idxEntry := producer.Insert(blockStartIndex, indexOk, garbage);
      if ok {
        assert SeenIn(was, window, producer.begun - 1, oldest, rewound);
        assert Inserting(was, tail, window, free);
      }
    }

    /** What is known of the entries and of what has been loaded right after an insertion. */
    ghost predicate Inserting(was: BlockIndexHeader, tail: nat, window: seq<BlockIndexEntry>, free: bool)
      reads this, producer, was, window, retired.Keys
    {
      var p := producer;
      && p.pending && p.begun > 0 && p.window != [] && Inserted(window, free, p.window) && (rewound ==> free)
      && SeenIn(was, window, p.begun - 1, oldest, rewound)
      && Sees(was.index, tail, p.begun - 2, window, p.begun - 1, oldest, rewound)
      && (p.blockIndex == was || (p.blockIndex !in retired && was.tail == tail))
      && oldest < p.begun <= oldest + |window| + 1 && (forall n :: n in p.live ==> oldest <= n)
      && (forall d :: 0 <= d < |window| && d < p.begun - 1 - oldest && window[d] != p.window[0] ==>
            window[d].key == (p.begun - 2 - d) * BLOCK_SIZE)
    }

    ghost method Follow(was: BlockIndexHeader, tail: nat, window: seq<BlockIndexEntry>, free: bool)
      requires producer.Valid() && Inserting(was, tail, window, free)
      modifies this`oldest, this`rewound, this`retired
      ensures Keys() && Seen()
      ensures retired == if producer.blockIndex == was then old(retired) else old(retired)[was := producer.begun - 2]
    {
      ghost var first := if oldest + |producer.window| < producer.begun then producer.begun - |producer.window| else oldest;
      KeysStay(window, free, first);
      hide ImplicitProducer.Valid, Inserted, Sees, Keys, Seen, SeenIn;
      assert first < producer.begun <= first + |producer.window|;
      SeenStays(was, tail, window, free, first);
      hide KeysFrom;
      Settle(was, tail, first);
    }

    /** The entries keep their keys, but for the one that was taken. */
    lemma KeysStay(window: seq<BlockIndexEntry>, free: bool, first: nat)
      requires producer.Valid() && producer.pending && producer.begun > 0 && Inserted(window, free, producer.window)
      requires oldest < producer.begun <= oldest + |window| + 1 && forall n :: n in producer.live ==> oldest <= n
      requires forall d :: 0 <= d < |window| && d < producer.begun - 1 - oldest && window[d] != producer.window[0] ==>
                 window[d].key == (producer.begun - 2 - d) * BLOCK_SIZE
      requires first == if oldest + |producer.window| < producer.begun then producer.begun - |producer.window| else oldest
      ensures KeysFrom(first, false)
    {
      forall d | 0 < d < producer.begun - first
        ensures producer.window[d].key == (producer.begun - 1 - d) * BLOCK_SIZE
      {
        assert producer.window[d] == window[d - 1];
      }
    }

    /** An insertion makes nothing unseen. */
    lemma SeenStays(was: BlockIndexHeader, tail: nat, window: seq<BlockIndexEntry>, free: bool, first: nat)
      requires producer.begun > 0 && Inserted(window, free, producer.window) && (rewound ==> free)
      requires SeenIn(was, window, producer.begun - 1, oldest, rewound)
      requires Sees(was.index, tail, producer.begun - 2, window, producer.begun - 1, oldest, rewound)
      requires oldest <= first < producer.begun <= first + |producer.window|
      ensures SeenIn(was, producer.window, producer.begun, first, false)
      ensures Sees(was.index, tail, producer.begun - 2, producer.window, producer.begun, first, false)
    {
      assert Inserted(window, rewound, producer.window);
      hide Sees, Inserted;
      SeesInsert(was.index, tail, producer.begun - 2, window, producer.begun - 1, oldest, rewound, producer.window, producer.begun, first);
      forall h | h in retired
        ensures Sees(h.index, h.tail, retired[h], producer.window, producer.begun, first, false)
      {
        SeesInsert(h.index, h.tail, retired[h], window, producer.begun - 1, oldest, rewound, producer.window, producer.begun, first);
      }
      forall s | s in sights
        ensures Sees(s.header.index, s.tail, s.newest, producer.window, producer.begun, first, false)
      {
        SeesInsert(s.header.index, s.tail, s.newest, window, producer.begun - 1, oldest, rewound, producer.window, producer.begun, first);
      }
    }

    ghost method Settle(was: BlockIndexHeader, tail: nat, first: nat)
      requires producer.begun > 0 && KeysFrom(first, false)
      requires SeenIn(was, producer.window, producer.begun, first, false)
      requires Sees(was.index, tail, producer.begun - 2, producer.window, producer.begun, first, false)
      requires producer.blockIndex == was || (producer.blockIndex !in retired && was.tail == tail)
      modifies this`oldest, this`rewound, this`retired
      ensures Keys() && Seen()
      ensures retired == if producer.blockIndex == was then old(retired) else old(retired)[was := producer.begun - 2]
    {
      hide Sees, KeysFrom;
      oldest, rewound := first, false;
      if producer.blockIndex != was {
        retired := retired[was := producer.begun - 2];
      }
    }

    method Publish(idxEntry: BlockIndexEntry, block: BlockId)
      requires Valid() && producer.pending && idxEntry == producer.window[0]
      modifies producer`pending, producer`live, idxEntry`value
      ensures Valid() && !producer.pending
      ensures producer.live == old(producer.live)[producer.begun - 1 := block] && producer.begun == old(producer.begun)
    {
      Unfolded();
      hide Sees, Room, ImplicitProducer.Valid;
      producer.Publish(idxEntry, block);
    }

    method Free(entry: BlockIndexEntry, ghost n: nat)
      requires Valid() && n in producer.live && entry == producer.window[producer.begun - 1 - n]
      modifies producer`live, entry`value
      ensures Valid() && producer.live == old(producer.live) - {n}
    {
      Unfolded();
      hide Sees, Room, ImplicitProducer.Valid;
      producer.Free(entry, n);
    }

    method Rewind(idxEntry: BlockIndexEntry)
      requires Valid() && producer.pending && idxEntry == producer.window[0]
      modifies this`rewound, producer`begun, producer`pending, producer`window, producer.blockIndex, idxEntry`value
      ensures Valid() && !producer.pending && rewound
      ensures producer.live == old(producer.live) && producer.begun == old(producer.begun) - 1
    {
      ghost var window := producer.window;
      Unfolded();
      hide Sees, Seen, SeenIn, ImplicitProducer.Valid;
      producer.Rewind(idxEntry);
      SeenBack(window);
      rewound := true;
    }

    /** Undoing an insertion makes nothing unseen. */
    lemma SeenBack(window: seq<BlockIndexEntry>)
      requires window != [] && producer.window == window[1..] + [window[0]] && !rewound && oldest <= producer.begun
      requires SeenIn(producer.blockIndex, window, producer.begun + 1, oldest, false)
      ensures SeenIn(producer.blockIndex, producer.window, producer.begun, oldest, true)
    {
      hide Sees;
      forall h | h in retired
        ensures Sees(h.index, h.tail, retired[h], producer.window, producer.begun, oldest, true)
      {
        SeesRewind(h.index, h.tail, retired[h], window, producer.begun + 1, oldest, producer.window, producer.begun);
      }
      forall s | s in sights
        ensures Sees(s.header.index, s.tail, s.newest, producer.window, producer.begun, oldest, true)
      {
        SeesRewind(s.header.index, s.tail, s.newest, window, producer.begun + 1, oldest, producer.window, producer.begun);
      }
    }
  }
}
