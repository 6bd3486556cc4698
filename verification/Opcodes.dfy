/** The byte-level instruction set (src/opcodes.rs). */
module Opcodes {
  import opened Bytes

  type u32 = x: int | 0 <= x < U32
  type u64 = x: int | 0 <= x < U64

  datatype EntityAddress = EntityAddress(node: u32, vat: u32, entity: u32)

  // Lists hold syntax trees in the code; no list is ever encoded, so their elements are not modelled.
  datatype Hvalue = NoValue | PString(text: Text) | Hu8(n: byte) | Address(address: EntityAddress) | List | Promise(id: byte)

  datatype Op =
    | Nop | Add | Sub | Mul | Div | Ret
    | Push(value: Hvalue)
    | ForeignCall(pointer: u64, argc: byte)
    | Call(target: u64, argc: byte)
    | Message(function_: u64, argc: byte)
    | ConstructEntity(entity: u32, argc: byte)
    | Lload(name: Text) | Lstore(name: Text)
    | Eload(name: Text) | Estore(name: Text)
    | Await

  // ---- Values ----

  /** encode_value panics on the other values. */
  predicate EncodableValue(v: Hvalue) {
    !v.NoValue? && !v.List?
  }

  function EncodeValue(v: Hvalue): seq<byte>
    requires EncodableValue(v)
  {
    match v
    case Hu8(n) => [1, n]
    case Promise(id) => [2, id]
    case Address(a) => [3] + (PutU32(a.node) + (PutU32(a.vat) + PutU32(a.entity)))
    case PString(t) => [4] + PutText(t)
  }

  /** The value at the front of the block and its size; None where decode_value panics. */
  function DecodeValue(s: seq<byte>): (r: Option<(nat, Hvalue)>)
    ensures r.Some? ==> 0 < r.value.0 <= |s|
  {
    if s == [] then None
    else if s[0] == 1 then
      if |s| < 2 then None else Some((2, Hu8(s[1])))
    else if s[0] == 2 then
      if |s| < 2 then None else Some((2, Promise(s[1])))
    else if s[0] == 3 then
      if |s| < 13 then None
      else
        match (ReadU32(s[1..]), ReadU32(s[5..]), ReadU32(s[9..]))
        case (Some(node), Some(vat), Some(entity)) => Some((13, Address(EntityAddress(node, vat, entity))))
        case _ => None
    else if s[0] == 4 then
      match ReadText(s[1..])
      case Some((n, t)) => Some((n + 1, PString(t)))
      case None => None
    else None
  }

  /** Which texts survive: a value with a NUL inside its text is cut there. */
  predicate NulFreeValue(v: Hvalue) {
    v.PString? ==> NulFree(v.text)
  }

  lemma DecodeAddress(a: EntityAddress, rest: seq<byte>)
    ensures DecodeValue(EncodeValue(Address(a)) + rest) == Some((13, Address(a)))
  {
    var (x, y, z) := (PutU32(a.node), PutU32(a.vat), PutU32(a.entity));
    var s := [3] + (x + (y + z)) + rest;
    assert s[1..] == x + (y + z + rest) && s[5..] == y + (z + rest) && s[9..] == z + rest;
    ReadPutU32(a.node, y + z + rest);
    ReadPutU32(a.vat, z + rest);
    ReadPutU32(a.entity, rest);
  }

  lemma DecodeEncodeValue(v: Hvalue, rest: seq<byte>)
    requires EncodableValue(v)
    ensures DecodeValue(EncodeValue(v) + rest) == Some((|EncodeValue(v)|, v)) <==> NulFreeValue(v)
  {
    match v
    case Address(a) =>
      DecodeAddress(a, rest);
    case PString(t) =>
      assert ([4] + PutText(t) + rest)[1..] == PutText(t) + rest;
      ReadPutText(t, rest);
    case _ =>
  }

  // ---- Instructions ----

  predicate Encodable(op: Op) {
    op.Push? ==> EncodableValue(op.value)
  }

  predicate NulFreeOp(op: Op) {
    match op
    case Push(v) => NulFreeValue(v)
    case Lload(t) => NulFree(t)
    case Lstore(t) => NulFree(t)
    case Eload(t) => NulFree(t)
    case Estore(t) => NulFree(t)
    case _ => true
  }

  function Opcode(op: Op): byte {
    match op
    case Nop => 0
    case Add => 1
    case Sub => 2
    case Mul => 3
    case Div => 4
    case Ret => 5
    case Push(_) => 6
    case ForeignCall(_, _) => 7
    case Call(_, _) => 8
    case Message(_, _) => 9
    case ConstructEntity(_, _) => 10
    case Lload(_) => 11
    case Lstore(_) => 12
    case Eload(_) => 13
    case Estore(_) => 14
    case Await => 15
  }

  function Operands(op: Op): seq<byte>
    requires Encodable(op)
  {
    match op
    case Push(v) => EncodeValue(v)
    case ForeignCall(p, n) => PutU64(p) + [n]
    case Call(a, n) => PutU64(a) + [n]
    case Message(f, n) => PutU64(f) + [n]
    case ConstructEntity(e, n) => PutU32(e) + [n]
    case Lload(t) => PutText(t)
    case Lstore(t) => PutText(t)
    case Eload(t) => PutText(t)
    case Estore(t) => PutText(t)
    case _ => []
  }

  /** encode_instruction. */
  function Encode(op: Op): (s: seq<byte>)
    requires Encodable(op)
    ensures |s| > 0
  {
    [Opcode(op)] + Operands(op)
  }

  /** A u64 operand and the argument count after it. */
  function DecodeCall(s: seq<byte>): Option<(u64, byte)> {
    if |s| < 9 then None
    else
      match ReadU64(s)
      case Some(a) => Some((a, s[8]))
      case None => None
  }

  function NameOp(opcode: byte, name: Text): Op
    requires 11 <= opcode <= 14
  {
    if opcode == 11 then Lload(name) else if opcode == 12 then Lstore(name) else if opcode == 13 then Eload(name) else Estore(name)
  }

  /** A name operand. */
  function DecodeName(opcode: byte, s: seq<byte>): Option<(nat, Op)>
    requires 11 <= opcode <= 14
  {
    match ReadText(s)
    case Some((n, name)) => Some((n, NameOp(opcode, name)))
    case None => None
  }

  /** The operands of an instruction with this opcode and how many bytes they take.
      Opcodes past Await have no meaning: the code transmutes the byte into an enum without that variant. */
  function DecodeOperands(opcode: byte, s: seq<byte>): Option<(nat, Op)> {
    match opcode
    case 0 => Some((0, Nop))
    case 1 => Some((0, Add))
    case 2 => Some((0, Sub))
    case 3 => Some((0, Mul))
    case 4 => Some((0, Div))
    case 5 => Some((0, Ret))
    case 6 =>
      (match DecodeValue(s) case Some((n, v)) => Some((n, Push(v))) case None => None)
    case 7 => (match DecodeCall(s) case Some((p, n)) => Some((9, ForeignCall(p, n))) case None => None)
    case 8 => (match DecodeCall(s) case Some((a, n)) => Some((9, Call(a, n))) case None => None)
    case 9 => (match DecodeCall(s) case Some((f, n)) => Some((9, Message(f, n))) case None => None)
    case 10 =>
      if |s| < 5 then None
      else (match ReadU32(s) case Some(e) => Some((5, ConstructEntity(e, s[4]))) case None => None)
    case 11 => DecodeName(opcode, s)
    case 12 => DecodeName(opcode, s)
    case 13 => DecodeName(opcode, s)
    case 14 => DecodeName(opcode, s)
    case 15 => Some((0, Await))
    case _ => None
  }

  /** decode_instruction: the next offset and the instruction; None where it panics or is undefined. */
  function Decode(x: nat, code: seq<byte>): (r: Option<(nat, Op)>)
    ensures r.Some? ==> x < r.value.0 <= |code|
  {
    if x >= |code| then None
    else
      match DecodeOperands(code[x], code[x + 1..])
      case Some((n, op)) => Some((x + 1 + n, op))
      case None => None
  }

  lemma DecodeCallPut(a: u64, n: byte, rest: seq<byte>)
    ensures DecodeCall(PutU64(a) + [n] + rest) == Some((a, n))
  {
    ReadPutU64(a, [n] + rest);
    assert PutU64(a) + [n] + rest == PutU64(a) + ([n] + rest);
  }

  lemma NamesRoundTrip(op: Op, rest: seq<byte>)
    requires op.Lload? || op.Lstore? || op.Eload? || op.Estore?
    ensures DecodeOperands(Opcode(op), PutText(op.name) + rest) == Some((|op.name| + 1, op)) <==> NulFree(op.name)
  {
    ReadPutText(op.name, rest);
    hide ReadText, PutText, NulFree;
    assert DecodeOperands(Opcode(op), PutText(op.name) + rest) == DecodeName(Opcode(op), PutText(op.name) + rest);
  }

  lemma CallsRoundTrip(op: Op, rest: seq<byte>)
    requires op.ForeignCall? || op.Call? || op.Message?
    ensures DecodeOperands(Opcode(op), Operands(op) + rest) == Some((|Operands(op)|, op))
  {
    var a := if op.ForeignCall? then op.pointer else if op.Call? then op.target else op.function_;
    DecodeCallPut(a, op.argc, rest);
  }

  lemma OperandsRoundTrip(op: Op, rest: seq<byte>)
    requires Encodable(op)
    ensures DecodeOperands(Opcode(op), Operands(op) + rest) == Some((|Operands(op)|, op)) <==> NulFreeOp(op)
  {
    if op.Push? {
      DecodeEncodeValue(op.value, rest);
    } else if op.ForeignCall? || op.Call? || op.Message? {
      CallsRoundTrip(op, rest);
    } else if op.ConstructEntity? {
      assert PutU32(op.entity) + [op.argc] + rest == PutU32(op.entity) + ([op.argc] + rest);
      ReadPutU32(op.entity, [op.argc] + rest);
    } else if op.Lload? || op.Lstore? || op.Eload? || op.Estore? {
      NamesRoundTrip(op, rest);
    }
  }

  /** Decoding looks at nothing but the bytes from its offset on. */
  lemma DecodeAt(pre: seq<byte>, opcode: byte, s: seq<byte>)
    ensures Decode(|pre|, pre + [opcode] + s) ==
            match DecodeOperands(opcode, s)
            case Some((n, op)) => Some((|pre| + 1 + n, op))
            case None => None
  {
    assert (pre + [opcode] + s)[|pre| + 1..] == s;
  }

  /** An instruction reads back, with its exact end, wherever it stands: exactly when its texts are NUL-free. */
  lemma DecodeEncode(pre: seq<byte>, op: Op, post: seq<byte>)
    requires Encodable(op)
    ensures Decode(|pre|, pre + Encode(op) + post) == Some((|pre| + |Encode(op)|, op)) <==> NulFreeOp(op)
  {
    assert pre + ([Opcode(op)] + Operands(op)) + post == pre + [Opcode(op)] + (Operands(op) + post);
    DecodeAt(pre, Opcode(op), Operands(op) + post);
    OperandsRoundTrip(op, post);
    hide Operands, Opcode, NulFreeOp, Encodable, DecodeOperands;
  }

  // ---- The bytes themselves ----

  // The variants of the byte-sized enum, in the order of their declaration.
  const DECLARED: seq<string> := ["Nop", "Add", "Sub", "Mul", "Div", "Ret", "Push", "ForeignCall", "Call", "Message",
                                  "ConstructEntity", "Lload", "Lstore", "Eload", "Estore", "Await"]

  function NameOf(op: Op): string {
    if op.Nop? then "Nop" else if op.Add? then "Add" else if op.Sub? then "Sub" else if op.Mul? then "Mul"
    else if op.Div? then "Div" else if op.Ret? then "Ret" else if op.Push? then "Push"
    else if op.ForeignCall? then "ForeignCall" else if op.Call? then "Call" else if op.Message? then "Message"
    else if op.ConstructEntity? then "ConstructEntity" else if op.Lload? then "Lload" else if op.Lstore? then "Lstore"
    else if op.Eload? then "Eload" else if op.Estore? then "Estore" else "Await"
  }

  lemma OpcodeDeclared(op: Op)
    ensures Opcode(op) < |DECLARED| && DECLARED[Opcode(op)] == NameOf(op)
  {
  }

  /** How an instruction is written: its place in the enum, then a number, most significant byte first,
      with the argument count behind it, or a name with its NUL, or a value. */
  lemma Written(op: Op)
    requires Encodable(op)
    ensures var s := Encode(op);
            && s[0] < |DECLARED| && DECLARED[s[0]] == NameOf(op)
            && (op.Call? ==> |s| == 10 && Spelt(s[1..9]) == op.target && s[9] == op.argc)
            && (op.Message? ==> |s| == 10 && Spelt(s[1..9]) == op.function_ && s[9] == op.argc)
            && (op.ForeignCall? ==> |s| == 10 && Spelt(s[1..9]) == op.pointer && s[9] == op.argc)
            && (op.ConstructEntity? ==> |s| == 6 && Spelt(s[1..5]) == op.entity && s[5] == op.argc)
            && (op.Lload? || op.Lstore? || op.Eload? || op.Estore? ==> s[1..] == op.name + [0])
            && (op.Push? ==> WrittenValue(s[1..], op.value))
  {
    OpcodeDeclared(op);
    if op.Call? || op.Message? || op.ForeignCall? {
      var a := if op.ForeignCall? then op.pointer else if op.Call? then op.target else op.function_;
      hide PutU64, Spelt;
      PutSpells(a);
      assert Encode(op)[1..9] == PutU64(a);
    } else if op.ConstructEntity? {
      hide PutU32, Spelt;
      PutSpells(op.entity);
      assert Encode(op)[1..5] == PutU32(op.entity);
    } else if op.Push? {
      ValueWritten(op.value);
    }
  }

  ghost predicate WrittenValue(s: seq<byte>, v: Hvalue) {
    match v
    case Hu8(n) => s == [1, n]
    case Promise(id) => s == [2, id]
    case Address(a) =>
      |s| == 13 && s[0] == 3 && Spelt(s[1..5]) == a.node && Spelt(s[5..9]) == a.vat && Spelt(s[9..13]) == a.entity
    case PString(t) => s == [4] + t + [0]
    case _ => false
  }

  lemma ValueWritten(v: Hvalue)
    requires EncodableValue(v)
    ensures WrittenValue(EncodeValue(v), v)
  {
    if v.Address? {
      var a, s := v.address, EncodeValue(v);
      hide PutU32, Spelt;
      PutSpells(a.node);
      PutSpells(a.vat);
      PutSpells(a.entity);
      assert s[1..5] == PutU32(a.node) && s[5..9] == PutU32(a.vat) && s[9..13] == PutU32(a.entity);
    }
  }

  // ---- Runs of instructions ----

  ghost predicate Clean(ops: seq<Op>) {
    forall i :: 0 <= i < |ops| ==> Encodable(ops[i]) && NulFreeOp(ops[i])
  }

  function EncodeAll(ops: seq<Op>): seq<byte>
    requires forall i :: 0 <= i < |ops| ==> Encodable(ops[i])
  {
    if ops == [] then [] else Encode(ops[0]) + EncodeAll(ops[1..])
  }

  lemma {:induction false} EncodeAllConcat(a: seq<Op>, b: seq<Op>)
    requires forall i :: 0 <= i < |a| ==> Encodable(a[i])
    requires forall i :: 0 <= i < |b| ==> Encodable(b[i])
    ensures EncodeAll(a + b) == EncodeAll(a) + EncodeAll(b)
  {
    hide Encode;
    if a == [] {
      assert a + b == b;
    } else {
      EncodeAllConcat(a[1..], b);
      assert (a + b)[0] == a[0] && (a + b)[1..] == a[1..] + b;
      Assoc(Encode(a[0]), EncodeAll(a[1..]), EncodeAll(b));
    }
  }

  /** The disassembler's inner loop (src/pbin.rs:117-121): the instructions read and where the reading ended. */
  function Sweep(x: nat, end: nat, code: seq<byte>): Option<(nat, seq<Op>)>
    decreases end - x
  {
    if x >= end then Some((x, []))
    else
      match Decode(x, code)
      case None => None
      case Some((next, op)) =>
        match Sweep(next, end, code)
        case None => None
        case Some((last, ops)) => Some((last, [op] + ops))
  }

  /** The loop itself; it stops early where the code would panic. */
  method SweepLoop(start: nat, end: nat, code: seq<byte>) returns (x: nat, read: seq<Op>, panicked: bool)
    ensures panicked <==> Sweep(start, end, code).None?
    ensures !panicked ==> Sweep(start, end, code) == Some((x, read))
  {
    x, read, panicked := start, [], false;
    PrependNone(Sweep(start, end, code));
    while x < end
      invariant Prepend(read, Sweep(x, end, code)) == Sweep(start, end, code)
      decreases end - x
    {
      var inst := Decode(x, code);
      if inst.None? {
        panicked := true;
        return;
      }
      PrependOne(read, inst.value.1, Sweep(inst.value.0, end, code));
      x := inst.value.0;
      read := read + [inst.value.1];
    }
    assert read + [] == read;
  }

  ghost function Prepend(read: seq<Op>, r: Option<(nat, seq<Op>)>): Option<(nat, seq<Op>)> {
    match r
    case None => None
    case Some((x, ops)) => Some((x, read + ops))
  }

  lemma PrependNone(r: Option<(nat, seq<Op>)>)
    ensures Prepend([], r) == r
  {
    if r.Some? {
      assert [] + r.value.1 == r.value.1;
    }
  }

  lemma PrependOne(read: seq<Op>, op: Op, r: Option<(nat, seq<Op>)>)
    ensures Prepend(read, Prepend([op], r)) == Prepend(read + [op], r)
  {
    if r.Some? {
      assert read + ([op] + r.value.1) == read + [op] + r.value.1;
    }
  }

  /** Sweeping a run of encoded instructions gives them back and stops exactly at their end. */
  lemma {:induction false} SweepEncoded(pre: seq<byte>, ops: seq<Op>, post: seq<byte>)
    requires Clean(ops)
    ensures Sweep(|pre|, |pre| + |EncodeAll(ops)|, pre + EncodeAll(ops) + post) == Some((|pre| + |EncodeAll(ops)|, ops))
    decreases |ops|
  {
    hide Encode, Decode;
    if ops != [] {
      var first, rest := Encode(ops[0]), EncodeAll(ops[1..]);
      DecodeEncode(pre, ops[0], rest + post);
      SweepEncoded(pre + first, ops[1..], post);
      Regroup(pre, first, rest, post);
      assert [ops[0]] + ops[1..] == ops;
    }
  }

  /** The same for instructions found inside a block. */
  lemma SweepInside(code: seq<byte>, start: nat, size: nat, ops: seq<Op>)
    requires Clean(ops) && start + size <= |code| && code[start..][..size] == EncodeAll(ops)
    ensures Sweep(start, start + size, code) == Some((start + size, ops))
  {
    hide EncodeAll, Sweep;
    var pre, post := code[..start], code[start..][size..];
    assert code == pre + EncodeAll(ops) + post;
    SweepEncoded(pre, ops, post);
  }
}
