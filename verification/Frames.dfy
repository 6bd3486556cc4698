/** The bitmap frame allocator (src/memory.rs:122-205). */
module Frames {

  // ---- Bits ----

  /** 1 << (7 - offset). */
  function Mask(offset: nat): bv8
    requires offset < 8
  {
    match offset
    case 0 => 0x80
    case 1 => 0x40
    case 2 => 0x20
    case 3 => 0x10
    case 4 => 0x08
    case 5 => 0x04
    case 6 => 0x02
    case 7 => 0x01
  }

  function IsFree(bitmap: seq<bv8>, page: nat): bool
    requires page < 8 * |bitmap|
  {
    bitmap[page / 8] & Mask(page % 8) == 0
  }

  /** Pages go through a byte from its most significant bit down. */
  lemma HighestFirst(bitmap: seq<bv8>, page: nat)
    requires page < 8 * |bitmap|
    ensures IsFree(bitmap, page) <==> (bitmap[page / 8] >> (7 - page % 8)) & 1 == 0
  {
    var b := bitmap[page / 8];
    match page % 8
    case 0 => assert b & 0x80 == 0 <==> (b >> 7) & 1 == 0;
    case 1 => assert b & 0x40 == 0 <==> (b >> 6) & 1 == 0;
    case 2 => assert b & 0x20 == 0 <==> (b >> 5) & 1 == 0;
    case 3 => assert b & 0x10 == 0 <==> (b >> 4) & 1 == 0;
    case 4 => assert b & 0x08 == 0 <==> (b >> 3) & 1 == 0;
    case 5 => assert b & 0x04 == 0 <==> (b >> 2) & 1 == 0;
    case 6 => assert b & 0x02 == 0 <==> (b >> 1) & 1 == 0;
    case 7 => assert b & 0x01 == 0 <==> (b >> 0) & 1 == 0;
  }

  lemma SetBit(b: bv8, i: nat, j: nat)
    requires i < 8 && j < 8
    ensures ((b | Mask(i)) & Mask(j) == 0) <==> i != j && b & Mask(j) == 0
  {
    SetMasks(b, Mask(i), Mask(j));
    MasksDiffer(i, j);
  }

  lemma ClearBit(b: bv8, i: nat, j: nat)
    requires i < 8 && j < 8
    ensures ((b & !Mask(i)) & Mask(j) == 0) <==> i == j || b & Mask(j) == 0
  {
    ClearMasks(b, Mask(i), Mask(j));
    MasksDiffer(i, j);
  }

  lemma MasksDiffer(i: nat, j: nat)
    requires i < 8 && j < 8
    ensures Mask(i) & Mask(j) == (if i == j then Mask(i) else 0) && Mask(i) != 0
  {
  }

  lemma SetMasks(b: bv8, x: bv8, y: bv8)
    requires x != 0 && (x & y == 0 || x == y)
    ensures (b | x) & y == 0 <==> x != y && b & y == 0
  {
  }

  lemma ClearMasks(b: bv8, x: bv8, y: bv8)
    requires x != 0 && (x & y == 0 || x == y)
    ensures (b & !x) & y == 0 <==> x == y || b & y == 0
  {
  }

  // ---- Runs of free pages ----

  predicate Run(bitmap: seq<bv8>, start: nat, n: nat) {
    start + n <= 8 * |bitmap| && forall p :: start <= p < start + n ==> IsFree(bitmap, p)
  }

  /** No run of that length starts lower. */
  ghost predicate Lowest(bitmap: seq<bv8>, start: nat, n: nat) {
    forall t :: 0 <= t < start ==> !Run(bitmap, t, n)
  }

  /** When an allocation of n pages succeeds. The search compares page numbers with the number of bytes
      of the bitmap, except when it stops at the first free page. */
  ghost predicate Allocatable(bitmap: seq<bv8>, n: nat) {
    n > 0 && exists s: nat :: Run(bitmap, s, n) && (n == 1 || s + n - 1 <= |bitmap|)
  }

  /** Exactly these pages are taken, no others touched. */
  ghost predicate Takes(before: seq<bv8>, after: seq<bv8>, start: nat, n: nat) {
    && |after| == |before| && start + n <= 8 * |before|
    && forall p :: 0 <= p < 8 * |before| ==> (IsFree(after, p) <==> IsFree(before, p) && !(start <= p < start + n))
  }

  // ---- The steps of the search ----

  /** Where no page is free no run starts. */
  lemma SkipUsed(b: seq<bv8>, from: nat, start: nat, n: nat)
    requires n > 0 && from <= start && Lowest(b, from, n)
    requires forall p :: from <= p < start && p < 8 * |b| ==> !IsFree(b, p)
    ensures Lowest(b, start, n)
  {
    forall t | 0 <= t < start
      ensures !Run(b, t, n)
    {
      assert t >= from && t < 8 * |b| ==> !IsFree(b, t);
    }
  }

  lemma NoneLeft(b: seq<bv8>, from: nat, n: nat)
    requires n > 0 && Lowest(b, from, n) && forall p :: from <= p < 8 * |b| ==> !IsFree(b, p)
    ensures !Allocatable(b, n)
  {
    forall s: nat
      ensures !Run(b, s, n)
    {
      assert from <= s < 8 * |b| ==> !IsFree(b, s);
    }
  }

  /** A used page breaks every run it would be part of. */
  lemma SkipBroken(b: seq<bv8>, start: nat, page: nat, n: nat)
    requires start <= page < start + n && page < 8 * |b| && !IsFree(b, page) && Lowest(b, start, n)
    ensures Lowest(b, page, n)
  {
  }

  lemma RunTooHigh(b: seq<bv8>, start: nat, end: nat, n: nat)
    requires end + 1 >= 8 * |b| && end - start + 1 < n && Lowest(b, start, n)
    ensures !Allocatable(b, n)
  {
    forall s: nat
      ensures !Run(b, s, n)
    {
    }
  }

  lemma EndTooHigh(b: seq<bv8>, start: nat, end: nat, n: nat)
    requires n > 1 && end > |b| && end - start + 1 <= n && Lowest(b, start, n)
    ensures !Allocatable(b, n)
  {
    forall s: nat
      ensures !(Run(b, s, n) && s + n - 1 <= |b|)
    {
    }
  }

  class FrameAllocator {
    const bitmap: array<bv8>

    constructor (bitmap: array<bv8>)
      ensures this.bitmap == bitmap
    {
      this.bitmap := bitmap;
    }

    /** Out of range, the code panics. */
    method IsPageFree(page: nat) returns (free: bool, panicked: bool)
      ensures panicked <==> page >= 8 * bitmap.Length
      ensures !panicked ==> free == IsFree(bitmap[..], page)
    {
      if page / 8 >= bitmap.Length {
        return false, true;
      }
      return bitmap[page / 8] & Mask(page % 8) == 0, false;
    }

    method MarkPageUsed(page: nat) returns (panicked: bool)
      modifies bitmap
      ensures panicked <==> page >= 8 * bitmap.Length || !IsFree(old(bitmap[..]), page)
      ensures panicked ==> bitmap[..] == old(bitmap[..])
      ensures !panicked ==> Takes(old(bitmap[..]), bitmap[..], page, 1)
    {
      var free;
      free, panicked := IsPageFree(page);
      if panicked || !free {
        return true;
      }
      bitmap[page / 8] := bitmap[page / 8] | Mask(page % 8);
      forall p | 0 <= p < 8 * bitmap.Length
        ensures IsFree(bitmap[..], p) <==> IsFree(old(bitmap[..]), p) && p != page
      {
        if p / 8 == page / 8 {
          SetBit(old(bitmap[page / 8]), page % 8, p % 8);
        }
      }
    }

    method MarkPageUnused(page: nat) returns (panicked: bool)
      modifies bitmap
      ensures panicked <==> page >= 8 * bitmap.Length
      ensures panicked ==> bitmap[..] == old(bitmap[..])
      ensures !panicked ==>
                forall p :: 0 <= p < 8 * bitmap.Length ==> (IsFree(bitmap[..], p) <==> p == page || IsFree(old(bitmap[..]), p))
    {
      if page / 8 >= bitmap.Length {
        return true;
      }
      bitmap[page / 8] := bitmap[page / 8] & !Mask(page % 8);
      forall p | 0 <= p < 8 * bitmap.Length
        ensures IsFree(bitmap[..], p) <==> p == page || IsFree(old(bitmap[..]), p)
      {
        if p / 8 == page / 8 {
          ClearBit(old(bitmap[page / 8]), page % 8, p % 8);
        }
      }
      return false;
    }

    /** The inner search: the first free page from here on. */
    method NextFree(from: nat) returns (page: nat, panicked: bool)
      ensures panicked <==> forall p :: from <= p < 8 * bitmap.Length ==> !IsFree(bitmap[..], p)
      ensures !panicked ==> from <= page < 8 * bitmap.Length && IsFree(bitmap[..], page)
      ensures !panicked ==> forall p :: from <= p < page ==> !IsFree(bitmap[..], p)
    {
      page := from;
      var free;
      free, panicked := IsPageFree(page);
      while !panicked && !free
        invariant from <= page
        invariant panicked <==> page >= 8 * bitmap.Length
        invariant !panicked ==> free == IsFree(bitmap[..], page)
        invariant forall p :: from <= p < page && p < 8 * bitmap.Length ==> !IsFree(bitmap[..], p)
        decreases 8 * bitmap.Length - page
      {
        page := page + 1;
        free, panicked := IsPageFree(page);
      }
    }

    /** get_contiguous_range: the lowest run, or a panic. */
    method GetContiguousRange(n: nat) returns (start: nat, end: nat, panicked: bool)
      ensures panicked <==> !Allocatable(bitmap[..], n)
      ensures !panicked ==> end == start + n - 1 && Run(bitmap[..], start, n) && Lowest(bitmap[..], start, n)
    {
      start, end, panicked := 0, 0, true;
      if n == 0 {
        return;
      }
      ghost var b := bitmap[..];
      start, panicked := NextFree(0);
      if panicked {
        NoneLeft(b, 0, n);
        return;
      }
      SkipUsed(b, 0, start, n);
      end := start;
      while end - start + 1 < n
        invariant start <= end < 8 * bitmap.Length && end - start + 1 <= n
        invariant end == start || end <= |b|
        invariant Run(b, start, end - start + 1) && Lowest(b, start, n)
        decreases 8 * bitmap.Length - end
      {
        var free;
        free, panicked := IsPageFree(end + 1);
        if panicked {
          RunTooHigh(b, start, end, n);
          return;
        }
        if free {
          end := end + 1;
        } else {
          SkipBroken(b, start, end + 1, n);
          start, panicked := NextFree(end + 1);
          if panicked {
            NoneLeft(b, end + 1, n);
            return;
          }
          SkipUsed(b, end + 1, start, n);
          end := start;
        }
        if end > bitmap.Length {
          panicked := true;
          EndTooHigh(b, start, end, n);
          return;
        }
      }
    }

    /** allocate_contiguous: the first frame's address; exactly the pages of the lowest run are taken. */
    method AllocateContiguous(n: nat) returns (address: nat, ghost start: nat, panicked: bool)
      modifies bitmap
      ensures panicked <==> !Allocatable(old(bitmap[..]), n)
      ensures panicked ==> bitmap[..] == old(bitmap[..])
      ensures !panicked ==>
                && address == start * 4096
                && Run(old(bitmap[..]), start, n) && Lowest(old(bitmap[..]), start, n)
                && Takes(old(bitmap[..]), bitmap[..], start, n)
    {
      address, start := 0, 0;
      var first, last;
      first, last, panicked := GetContiguousRange(n);
      if panicked {
        return;
      }
      for i := first to last + 1
        invariant !panicked && Takes(old(bitmap[..]), bitmap[..], first, i - first)
      {
        panicked := MarkPageUsed(i);
      }
      address, start := first * 4096, first;
    }
  }

  // ---- Many allocations ----

  // One successful allocation: from which page, and how many.
  datatype Grant = Grant(start: nat, n: nat)

  ghost predicate Granted(before: seq<bv8>, after: seq<bv8>, g: Grant) {
    g.n > 0 && Run(before, g.start, g.n) && Takes(before, after, g.start, g.n)
  }

  /** Allocations one after another, with nothing given back in between. */
  ghost predicate Granting(bitmaps: seq<seq<bv8>>, grants: seq<Grant>) {
    |bitmaps| == |grants| + 1 && forall i :: 0 <= i < |grants| ==> Granted(bitmaps[i], bitmaps[i + 1], grants[i])
  }

  lemma {:induction false} StaysTaken(bitmaps: seq<seq<bv8>>, grants: seq<Grant>, i: nat, j: nat, p: nat)
    requires Granting(bitmaps, grants) && i < j <= |grants|
    requires grants[i].start <= p < grants[i].start + grants[i].n
    ensures p < 8 * |bitmaps[j]| && !IsFree(bitmaps[j], p)
    decreases j
  {
    if j == i + 1 {
      assert Granted(bitmaps[i], bitmaps[j], grants[i]);
    } else {
      StaysTaken(bitmaps, grants, i, j - 1, p);
      assert Granted(bitmaps[j - 1], bitmaps[j], grants[j - 1]);
    }
  }

  /** No frame is handed out twice: the ranges of any two allocations are disjoint. */
  lemma GrantsDisjoint(bitmaps: seq<seq<bv8>>, grants: seq<Grant>, i: nat, j: nat)
    requires Granting(bitmaps, grants) && i < j < |grants|
    ensures grants[i].start + grants[i].n <= grants[j].start || grants[j].start + grants[j].n <= grants[i].start
  {
    assert Granted(bitmaps[j], bitmaps[j + 1], grants[j]) && Granted(bitmaps[i], bitmaps[i + 1], grants[i]);
    var p := if grants[i].start < grants[j].start then grants[j].start else grants[i].start;
    if p < grants[i].start + grants[i].n && p < grants[j].start + grants[j].n {
      StaysTaken(bitmaps, grants, i, j, p);
    }
  }

  /** The check against the number of bytes can refuse a run that is free: here pages 2 and 3 of a one-byte bitmap. */
  lemma FreeButRefused()
    ensures var b: seq<bv8> := [0xC0]; Run(b, 2, 2) && !Allocatable(b, 2)
  {
    var b: seq<bv8> := [0xC0];
    forall s: nat
      ensures !(Run(b, s, 2) && s + 2 - 1 <= 1)
    {
      assert !IsFree(b, 0);
    }
    assert IsFree(b, 2) && IsFree(b, 3);
  }
}
