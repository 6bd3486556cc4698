/** Code generation and relocation (src/codegen.rs:184-189, 286-510). */
module Codegen {
  import opened Bytes
  import opened Opcodes
  import opened Tables
  import opened Syntax

  // ---- What is emitted, before anything has an address ----

  datatype Item = Plain(op: Op) | CallTo(entity: nat, func: nat, argc: byte)

  type Addresses = map<(nat, nat), nat>

  predicate EncodableItem(item: Item) {
    item.Plain? ==> Encodable(item.op)
  }

  ghost predicate EncodableItems(items: seq<Item>) {
    forall i :: 0 <= i < |items| ==> EncodableItem(items[i])
  }

  /** A call is emitted with address 0. */
  function RawOp(item: Item): Op {
    match item
    case Plain(op) => op
    case CallTo(_, _, argc) => Call(0, argc)
  }

  ghost predicate Addressed(items: seq<Item>, absolute: Addresses) {
    forall i :: 0 <= i < |items| && items[i].CallTo? ==>
      (items[i].entity, items[i].func) in absolute && absolute[(items[i].entity, items[i].func)] < U64
  }

  /** What the instruction has to be in the end. */
  ghost function LinkedOp(item: Item, absolute: Addresses): Op
    requires Addressed([item], absolute)
  {
    match item
    case Plain(op) => op
    case CallTo(ent, func, argc) =>
      assert [item][0] == item;
      Call(absolute[(ent, func)], argc)
  }

  ghost function Raw(items: seq<Item>): seq<byte>
    requires EncodableItems(items)
  {
    if items == [] then [] else Encode(RawOp(items[0])) + Raw(items[1..])
  }

  ghost function LinkedOps(items: seq<Item>, absolute: Addresses): (ops: seq<Op>)
    requires EncodableItems(items) && Addressed(items, absolute)
    ensures forall i :: 0 <= i < |ops| ==> Encodable(ops[i])
  {
    if items == [] then [] else [LinkedOp(items[0], absolute)] + LinkedOps(items[1..], absolute)
  }

  ghost function Linked(items: seq<Item>, absolute: Addresses): seq<byte>
    requires EncodableItems(items) && Addressed(items, absolute)
  {
    EncodeAll(LinkedOps(items, absolute))
  }

  /** The operand of every call, given that the items start at base. */
  ghost function Relocs(items: seq<Item>, base: nat): seq<(nat, nat, nat)>
    requires EncodableItems(items)
  {
    if items == [] then []
    else
      (if items[0].CallTo? then [(items[0].entity, items[0].func, base + 1)] else [])
      + Relocs(items[1..], base + |Encode(RawOp(items[0]))|)
  }

  lemma {:induction false} RawSnoc(items: seq<Item>, item: Item)
    requires EncodableItems(items) && EncodableItem(item)
    ensures Raw(items + [item]) == Raw(items) + Encode(RawOp(item))
  {
    hide Encode;
    if items == [] {
      assert items + [item] == [item];
    } else {
      RawSnoc(items[1..], item);
      assert (items + [item])[1..] == items[1..] + [item];
    }
  }

  lemma {:induction false} RelocsSnoc(items: seq<Item>, item: Item, base: nat)
    requires EncodableItems(items) && EncodableItem(item)
    ensures Relocs(items + [item], base) ==
            Relocs(items, base) + if item.CallTo? then [(item.entity, item.func, base + |Raw(items)| + 1)] else []
  {
    hide Encode;
    if items == [] {
      assert items + [item] == [item];
    } else {
      RelocsSnoc(items[1..], item, base + |Encode(RawOp(items[0]))|);
      assert (items + [item])[1..] == items[1..] + [item];
    }
  }

  lemma {:induction false} RawConcat(a: seq<Item>, b: seq<Item>)
    requires EncodableItems(a) && EncodableItems(b)
    ensures Raw(a + b) == Raw(a) + Raw(b)
  {
    hide Encode;
    if a == [] {
      assert a + b == b;
    } else {
      RawConcat(a[1..], b);
      assert (a + b)[1..] == a[1..] + b;
      Assoc(Encode(RawOp(a[0])), Raw(a[1..]), Raw(b));
    }
  }

  lemma {:induction false} LinkedConcat(a: seq<Item>, b: seq<Item>, absolute: Addresses)
    requires EncodableItems(a) && EncodableItems(b) && Addressed(a + b, absolute)
    ensures Addressed(a, absolute) && Addressed(b, absolute)
    ensures LinkedOps(a + b, absolute) == LinkedOps(a, absolute) + LinkedOps(b, absolute)
  {
    AddressedParts(a, b, absolute);
    if a == [] {
      assert a + b == b;
    } else {
      assert (a + b)[1..] == a[1..] + b;
      AddressedParts([a[0]], a[1..] + b, absolute);
      LinkedConcat(a[1..], b, absolute);
    }
  }

  lemma AddressedParts(a: seq<Item>, b: seq<Item>, absolute: Addresses)
    ensures Addressed(a + b, absolute) <==> Addressed(a, absolute) && Addressed(b, absolute)
  {
    if Addressed(a + b, absolute) {
      assert forall i :: 0 <= i < |a| ==> a[i] == (a + b)[i];
      assert forall i :: 0 <= i < |b| ==> b[i] == (a + b)[|a| + i];
    }
  }

  // ---- Relocation ----

  /** One splice of relocate_functions. */
  function Splice(code: seq<byte>, at: nat, address: nat): seq<byte>
    requires at + 8 <= |code| && address < U64
  {
    code[..at] + PutU64(address) + code[at + 8..]
  }

  ghost predicate Applicable(code: seq<byte>, relocs: seq<(nat, nat, nat)>, absolute: Addresses) {
    forall i :: 0 <= i < |relocs| ==>
      (relocs[i].0, relocs[i].1) in absolute && absolute[(relocs[i].0, relocs[i].1)] < U64 && relocs[i].2 + 8 <= |code|
  }

  ghost function Relocated(code: seq<byte>, relocs: seq<(nat, nat, nat)>, absolute: Addresses): (r: seq<byte>)
    requires Applicable(code, relocs, absolute)
    decreases |relocs|
  {
    if relocs == [] then code
    else Relocated(Splice(code, relocs[0].2, absolute[(relocs[0].0, relocs[0].1)]), relocs[1..], absolute)
  }

  lemma RelocateOne(code: seq<byte>, relocs: seq<(nat, nat, nat)>, absolute: Addresses)
    requires relocs != [] && Applicable(code, relocs, absolute)
    ensures relocs[0].2 + 8 <= |code| && (relocs[0].0, relocs[0].1) in absolute
    ensures absolute[(relocs[0].0, relocs[0].1)] < U64
    ensures var code' := Splice(code, relocs[0].2, absolute[(relocs[0].0, relocs[0].1)]);
            && Applicable(code', relocs[1..], absolute)
            && Relocated(code, relocs, absolute) == Relocated(code', relocs[1..], absolute)
  {
  }

  lemma RelocateNone(code: seq<byte>, absolute: Addresses)
    ensures Applicable(code, [], absolute) && Relocated(code, [], absolute) == code
  {
  }

  lemma LinkedLength(item: Item, absolute: Addresses)
    requires EncodableItem(item) && Addressed([item], absolute)
    ensures |Encode(LinkedOp(item, absolute))| == |Encode(RawOp(item))|
  {
  }

  lemma {:induction false} RelocsApplicable(items: seq<Item>, base: nat, absolute: Addresses, code: seq<byte>)
    requires EncodableItems(items) && Addressed(items, absolute) && base + |Raw(items)| <= |code|
    ensures Applicable(code, Relocs(items, base), absolute)
  {
    if items != [] {
      RelocsApplicable(items[1..], base + |Encode(RawOp(items[0]))|, absolute, code);
    }
  }

  lemma LinkedCons(items: seq<Item>, absolute: Addresses)
    requires items != [] && EncodableItems(items) && Addressed(items, absolute)
    ensures Addressed([items[0]], absolute) && Addressed(items[1..], absolute)
    ensures Linked(items, absolute) == Encode(LinkedOp(items[0], absolute)) + Linked(items[1..], absolute)
  {
    hide Encode;
    assert [items[0]] + items[1..] == items;
    AddressedParts([items[0]], items[1..], absolute);
    var rest := LinkedOps(items[1..], absolute);
    assert ([LinkedOp(items[0], absolute)] + rest)[1..] == rest;
  }

  /** Relocation puts every callee's address into its call and changes nothing else,
      whatever stands before and behind. */
  lemma {:induction false} RelocatedIsLinked(pre: seq<byte>, items: seq<Item>, post: seq<byte>, absolute: Addresses)
    requires EncodableItems(items) && Addressed(items, absolute)
    ensures Applicable(pre + Raw(items) + post, Relocs(items, |pre|), absolute)
    ensures Relocated(pre + Raw(items) + post, Relocs(items, |pre|), absolute) == pre + Linked(items, absolute) + post
    decreases |items|
  {
    hide Encode, Splice, Linked;
    RelocsApplicable(items, |pre|, absolute, pre + Raw(items) + post);
    if items == [] {
      assert Linked(items, absolute) == [] by { LinkedNone(absolute); }
    } else {
      LinkedCons(items, absolute);
      var was, now, rest := Encode(RawOp(items[0])), Encode(LinkedOp(items[0], absolute)), items[1..];
      LinkedLength(items[0], absolute);
      RelocatedIsLinked(pre + now, rest, post, absolute);
      Regroup(pre, was, Raw(rest), post);
      Regroup(pre, now, Linked(rest, absolute), post);
      if items[0].CallTo? {
        var relocs, address := Relocs(items, |pre|), absolute[(items[0].entity, items[0].func)];
        SpliceCall(pre, items[0].argc, address, Raw(rest) + post);
        assert relocs[0] == (items[0].entity, items[0].func, |pre| + 1);
        assert relocs[1..] == Relocs(rest, |pre + now|);
        assert Splice(pre + Raw(items) + post, |pre| + 1, address) == pre + now + Raw(rest) + post;
      } else {
        assert Relocs(items, |pre|) == Relocs(rest, |pre + now|);
      }
    }
  }

  lemma LinkedNone(absolute: Addresses)
    ensures Addressed([], absolute) && Linked([], absolute) == []
  {
  }

  lemma SpliceCall(pre: seq<byte>, argc: byte, address: u64, post: seq<byte>)
    ensures Splice(pre + Encode(Call(0, argc)) + post, |pre| + 1, address) == pre + Encode(Call(address, argc)) + post
  {
    var code := pre + Encode(Call(0, argc)) + post;
    assert code[..|pre| + 1] == pre + [8];
    assert code[|pre| + 9..] == [argc] + post;
  }

  lemma RelocatedAll(items: seq<Item>, absolute: Addresses)
    requires EncodableItems(items) && Addressed(items, absolute)
    ensures Applicable(Raw(items), Relocs(items, 0), absolute)
    ensures Relocated(Raw(items), Relocs(items, 0), absolute) == Linked(items, absolute)
  {
    hide Raw, Linked, Relocs, Relocated;
    RelocatedIsLinked([], items, [], absolute);
    assert [] + Raw(items) + [] == Raw(items) && [] + Linked(items, absolute) + [] == Linked(items, absolute);
  }
}
