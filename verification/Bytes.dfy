/** Byte-level readers and writers (src/bin_helpers.rs:39-93 and to_be_bytes). */
module Bytes {

  type byte = x: int | 0 <= x < 256

  datatype Option<+T> = None | Some(value: T)

  const U16: int := 0x1_0000
  const U32: int := 0x1_0000_0000
  const U64: int := 0x1_0000_0000_0000_0000

  lemma Assoc<T>(a: seq<T>, b: seq<T>, c: seq<T>)
    ensures a + b + c == a + (b + c)
  {
  }

  lemma Regroup<T>(a: seq<T>, b: seq<T>, c: seq<T>, d: seq<T>)
    ensures a + (b + c) + d == a + b + (c + d) == a + b + c + d
  {
  }

  // ---- to_be_bytes ----

  function PutU16(x: nat): (s: seq<byte>)
    requires x < U16
    ensures |s| == 2
  {
    [x / 256, x % 256]
  }

  function PutU32(x: nat): (s: seq<byte>)
    requires x < U32
    ensures |s| == 4
  {
    PutU16(x / U16) + PutU16(x % U16)
  }

  function PutU64(x: nat): (s: seq<byte>)
    requires x < U64
    ensures |s| == 8
  {
    PutU32(x / U32) + PutU32(x % U32)
  }

  // ---- Readers: None where the code indexes out of bounds ----

  function ReadU16(s: seq<byte>): Option<nat> {
    if |s| < 2 then None else Some((s[0] as int) * 0x100 + s[1] as int)
  }

  function ReadU32(s: seq<byte>): Option<nat> {
    match (ReadU16(s), if |s| < 4 then None else ReadU16(s[2..]))
    case (Some(hi), Some(lo)) => Some(hi * U16 + lo)
    case _ => None
  }

  function ReadU64(s: seq<byte>): Option<nat> {
    match (ReadU32(s), if |s| < 8 then None else ReadU32(s[4..]))
    case (Some(hi), Some(lo)) => Some(hi * U32 + lo)
    case _ => None
  }

  lemma ReadPutU16(x: nat, rest: seq<byte>)
    requires x < U16
    ensures ReadU16(PutU16(x) + rest) == Some(x)
  {
  }

  lemma ReadPutU32(x: nat, rest: seq<byte>)
    requires x < U32
    ensures ReadU32(PutU32(x) + rest) == Some(x)
  {
    ReadPutU16(x / U16, PutU16(x % U16) + rest);
    ReadPutU16(x % U16, rest);
    assert PutU32(x) + rest == PutU16(x / U16) + (PutU16(x % U16) + rest);
    assert (PutU32(x) + rest)[2..] == PutU16(x % U16) + rest;
  }

  lemma ReadPutU64(x: nat, rest: seq<byte>)
    requires x < U64
    ensures ReadU64(PutU64(x) + rest) == Some(x)
  {
    ReadPutU32(x / U32, PutU32(x % U32) + rest);
    ReadPutU32(x % U32, rest);
    assert PutU64(x) + rest == PutU32(x / U32) + (PutU32(x % U32) + rest);
    assert (PutU64(x) + rest)[4..] == PutU32(x % U32) + rest;
  }

  // ---- Most significant byte first ----

  /** The number that bytes spell, the first one counting most. */
  function Spelt(s: seq<byte>): (x: nat) {
    if s == [] then 0 else Spelt(s[..|s| - 1]) * 256 + s[|s| - 1]
  }

  lemma SpeltSnoc(s: seq<byte>, x: byte)
    ensures Spelt(s + [x]) == Spelt(s) * 256 + x
  {
    assert (s + [x])[..|s|] == s;
  }

  lemma SpeltPair(s: seq<byte>, x: byte, y: byte)
    ensures Spelt(s + [x, y]) == Spelt(s) * U16 + Spelt([x, y]) && Spelt([x, y]) == x * 256 + y
  {
    SpeltSnoc(s, x);
    SpeltSnoc(s + [x], y);
    SpeltSnoc([], x);
    SpeltSnoc([x], y);
    assert s + [x] + [y] == s + [x, y] && [] + [x] == [x] && [x] + [y] == [x, y];
  }

  lemma SpeltQuad(s: seq<byte>, b: seq<byte>)
    requires |b| == 4
    ensures Spelt(s + b) == Spelt(s) * U32 + Spelt(b) && Spelt(b) == Spelt(b[..2]) * U16 + Spelt(b[2..])
  {
    hide Spelt;
    SpeltPair(s, b[0], b[1]);
    SpeltPair(s + [b[0], b[1]], b[2], b[3]);
    SpeltPair([b[0], b[1]], b[2], b[3]);
    assert s + [b[0], b[1]] + [b[2], b[3]] == s + b;
    assert b[..2] == [b[0], b[1]] && b[2..] == [b[2], b[3]] && b == [b[0], b[1]] + [b[2], b[3]];
  }

  /** The writers spell their number. */
  lemma PutSpells(x: nat)
    ensures x < U16 ==> Spelt(PutU16(x)) == x
    ensures x < U32 ==> Spelt(PutU32(x)) == x
    ensures x < U64 ==> Spelt(PutU64(x)) == x
  {
    hide Spelt;
    if x < U16 {
      SpeltPair([], x / 256, x % 256);
    }
    if x < U32 {
      PutSpells32(x);
    }
    if x < U64 {
      PutSpells32(x / U32);
      PutSpells32(x % U32);
      SpeltQuad(PutU32(x / U32), PutU32(x % U32));
    }
  }

  lemma PutSpells32(x: nat)
    requires x < U32
    ensures Spelt(PutU32(x)) == x
  {
    hide Spelt;
    SpeltPair([], x / U16 / 256, x / U16 % 256);
    SpeltPair([], x % U16 / 256, x % U16 % 256);
    SpeltPair(PutU16(x / U16), x % U16 / 256, x % U16 % 256);
  }

  /** The readers take what is spelt at the front, if there is enough. */
  lemma ReadSpelt(s: seq<byte>)
    ensures ReadU16(s) == if |s| >= 2 then Some(Spelt(s[..2])) else None
    ensures ReadU32(s) == if |s| >= 4 then Some(Spelt(s[..4])) else None
    ensures ReadU64(s) == if |s| >= 8 then Some(Spelt(s[..8])) else None
  {
    hide Spelt;
    ReadSpelt32(s);
    if |s| >= 8 {
      ReadSpelt32(s[4..]);
      SpeltQuad(s[..4], s[4..8]);
      assert s[4..][..4] == s[4..8] && s[..4] + s[4..8] == s[..8];
    }
  }

  lemma ReadSpelt32(s: seq<byte>)
    ensures ReadU16(s) == if |s| >= 2 then Some(Spelt(s[..2])) else None
    ensures ReadU32(s) == if |s| >= 4 then Some(Spelt(s[..4])) else None
  {
    hide Spelt;
    if |s| >= 2 {
      SpeltPair([], s[0], s[1]);
      assert s[..2] == [s[0], s[1]];
    }
    if |s| >= 4 {
      SpeltPair([], s[2], s[3]);
      SpeltPair(s[..2], s[2], s[3]);
      assert s[..2] + [s[2], s[3]] == s[..4];
    }
  }

  // ---- NUL-terminated strings ----

  // A string is the sequence of its UTF-8 bytes.
  type Text = seq<byte>

  predicate NulFree(s: Text) {
    forall i :: 0 <= i < |s| ==> s[i] != 0
  }

  function PutText(s: Text): seq<byte> {
    s + [0]
  }

  /** The text before the first NUL, and how many bytes it takes with the NUL. */
  function ReadText(s: seq<byte>): (r: Option<(nat, Text)>)
    ensures r.Some? ==> 0 < r.value.0 <= |s| && r.value.0 == |r.value.1| + 1 && r.value.1 == s[..|r.value.1|]
    ensures r.Some? ==> NulFree(r.value.1) && s[|r.value.1|] == 0
    ensures r.None? <==> NulFree(s)
  {
    if s == [] then None
    else if s[0] == 0 then Some((1, []))
    else
      match ReadText(s[1..])
      case None => None
      case Some((n, t)) => Some((n + 1, [s[0]] + t))
  }

  /** read_utf8_str_sz. */
  method ReadTextLoop(vblock: seq<byte>) returns (r: Option<(nat, Text)>)
    ensures r == ReadText(vblock)
  {
    var i := 0;
    while i < |vblock| && vblock[i] != 0
      invariant i <= |vblock| && NulFree(vblock[..i])
    {
      i := i + 1;
    }
    if i == |vblock| {
      assert vblock[..i] == vblock;
      return None;
    }
    ReadTextFirst(vblock, i);
    return Some((i + 1, vblock[..i]));
  }

  /** The first NUL decides: whatever follows it is not read. */
  lemma {:induction false} ReadTextFirst(s: seq<byte>, i: nat)
    requires i < |s| && s[i] == 0 && NulFree(s[..i])
    ensures ReadText(s) == Some((i + 1, s[..i]))
  {
    if i > 0 {
      assert s[..i][0] == s[0];
      assert s[1..][..i - 1] == s[..i][1..];
      ReadTextFirst(s[1..], i - 1);
      assert s[..i] == [s[0]] + s[1..][..i - 1];
    }
  }

  lemma ReadPutText(t: Text, rest: seq<byte>)
    ensures ReadText(PutText(t) + rest) == Some((|t| + 1, t)) <==> NulFree(t)
  {
    if NulFree(t) {
      assert (PutText(t) + rest)[..|t|] == t;
      ReadTextFirst(PutText(t) + rest, |t|);
    }
  }
}
