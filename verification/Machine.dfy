/** The machine's loop and its treatment of messages (src/vm.rs:16-410). */
module VM {
  import opened Bytes
  import opened Opcodes
  import opened Tables
  import opened Vats

  // How run_expr ends: with a value, yielding (no value), or in a panic.
  datatype Ended = Ended(m: Machine, result: Option<Hvalue>) | Crashed | Foreign

  /** The last part of run_expr. */
  function Conclude(end: Outcome): Ended
    requires !end.Next?
  {
    match end
    case Halt(m) =>
      if |m.opStack| > 1 then Crashed
      else if m.opStack == [] then Ended(m, Some(NoValue))
      else Ended(m.Popped(1), Some(m.Top()))
    case Yield(m) => if |m.opStack| > 1 then Crashed else Ended(m, None)
    case Panic => Crashed
    case Unmodelled => Foreign
  }

  /** run_expr, if it ends within fuel instructions. */
  function Evaluate(cx: Running, m: Machine, fuel: nat): Option<Ended> {
    if cx.msg.dst.entity !in m.entities then Some(Crashed)
    else
      match Run(cx, m, fuel)
      case None => None
      case Some(end) => Some(Conclude(end))
  }

  /** The three tables, one behind the other; None where a loader panics. */
  function FunctionTable(code: seq<byte>): Option<Table<nat, Place>> {
    NamedInBounds();
    FunctionInBounds();
    match ReadTable(ReadNamed, code)
    case None => None
    case Some((z, _)) =>
      match ReadTable(ReadNamed, code[z..])
      case None => None
      case Some((q, _)) =>
        match ReadTable(ReadFunction, code[q + z..])
        case None => None
        case Some((_, rows)) => Some(Gather(rows))
  }

  // What run_msg leaves behind: the vat and the message to send back, if any.
  datatype Handled = Handled(m: Machine, out: Option<Msg>) | Failed

  function Answer(msg: Msg, ended: Ended, srcPromise: Option<nat>, noResponse: bool): Handled {
    match ended
    case Ended(m, Some(result)) =>
      Handled(m, if noResponse then None else Some(Msg(msg.dst, msg.src, Response(result, srcPromise))))
    case Ended(m, None) => Handled(m, None)
    case _ => Failed
  }

  /** A request runs its function on a new root frame of entity 0. */
  function HandleRequest(code: seq<byte>, m: Machine, msg: Msg, fuel: nat): Option<Handled>
    requires msg.contents.Request?
  {
    match FunctionTable(code)
    case None => Some(Failed)
    case Some(table) =>
      if msg.dst.entity !in m.entities then Some(Failed)
      else
        var kind, func := m.entities[msg.dst.entity].kind, msg.contents.func;
        if kind !in table || func !in table[kind] then Some(Failed)
        else
          var started := m.(pc := table[kind][func].start, opStack := m.opStack + msg.contents.args,
                            callStack := m.callStack + [Frame.Frame(0, map[], None)]);
          match Evaluate(Running(code, msg, msg.contents.srcPromise), started, fuel)
          case None => None
          case Some(ended) => Some(Answer(msg, ended, msg.contents.srcPromise, msg.contents.noResponse))
  }

  /** One resumption: back to the saved stacks, with the result in the first waiting variable. */
  function ResumeAt(code: seq<byte>, m: Machine, msg: Msg, p: PromiseState, at: nat, fuel: nat): Option<Ended>
    requires msg.contents.Response?
  {
    if p.varNames == [] || p.savePoint.1 == [] then Some(Crashed)
    else
      var restored := m.(pc := at, opStack := p.savePoint.0, callStack := p.savePoint.1);
      Evaluate(Running(code, msg, p.srcPromise), restored.Stored(p.varNames[0], msg.contents.result), fuel)
  }

  /** What a resumption adds to the outgoing message: the later one replaces the earlier. */
  function Forward(msg: Msg, p: PromiseState, ended: Ended, out: Option<Msg>): Handled {
    match ended
    case Ended(m, result) =>
      if result.Some? && p.srcPromise.Some? then
        if p.srcEntity.None? then Failed
        else Handled(m, Some(Msg(msg.dst, p.srcEntity.value, Response(result.value, p.srcPromise))))
      else Handled(m, out)
    case _ => Failed
  }

  /** All resumptions of a promise. The promise was cloned, so the one in the vat stays as it was. */
  function ResumeAll(code: seq<byte>, m: Machine, msg: Msg, p: PromiseState, points: seq<nat>, out: Option<Msg>, fuel: nat): Option<Handled>
    requires msg.contents.Response?
    decreases |points|
  {
    if points == [] then Some(Handled(m, out))
    else
      match ResumeAt(code, m, msg, p, points[0], fuel)
      case None => None
      case Some(ended) =>
        match Forward(msg, p, ended, out)
        case Failed => Some(Failed)
        case Handled(m', out') => ResumeAll(code, m', msg, p, points[1..], out', fuel)
  }

  function HandleResponse(code: seq<byte>, m: Machine, msg: Msg, fuel: nat): Option<Handled>
    requires msg.contents.Response?
  {
    match msg.contents.dstPromise
    case None => Some(Handled(m, None))
    case Some(id) =>
      if id % 256 !in m.promises then Some(Failed)
      else
        var p := m.promises[id % 256];
        ResumeAll(code, m, msg, p, p.onResolve, None, fuel)
  }

  function Handle(code: seq<byte>, m: Machine, msg: Msg, fuel: nat): Option<Handled> {
    if msg.contents.Request? then HandleRequest(code, m, msg, fuel) else HandleResponse(code, m, msg, fuel)
  }

  // ---- The same, updating a vat in place ----

  datatype Signal = Go | Stop | Wait | Crash | Skip

  function Signalled(signal: Signal, m: Machine): Outcome {
    match signal
    case Go => Next(m)
    case Stop => Halt(m)
    case Wait => Yield(m)
    case Crash => Panic
    case Skip => Unmodelled
  }

  class Vat {
    var opStack: seq<Hvalue>
    var callStack: seq<Frame>
    var entities: Entities
    var promises: map<nat, PromiseState>
    var sent: seq<Msg>  // what has gone into the channel

    function At(x: nat): Machine
      reads this
    {
      Machine.Machine(x, opStack, callStack, entities, promises, sent)
    }

    method Pop() returns (v: Hvalue)
      requires opStack != []
      modifies this`opStack
      ensures v == old(opStack)[|old(opStack)| - 1] && opStack == old(opStack)[..|old(opStack)| - 1]
    {
      v := opStack[|opStack| - 1];
      opStack := opStack[..|opStack| - 1];
    }

    /** The loop that pops the arguments. */
    method PopArgs(n: nat) returns (args: seq<Hvalue>)
      requires n <= |opStack|
      modifies this`opStack
      ensures args == Reversed(old(opStack)[|old(opStack)| - n..])
      ensures opStack == old(opStack)[..|old(opStack)| - n]
    {
      args := [];
      for i := 0 to n
        invariant |opStack| == |old(opStack)| - i && opStack == old(opStack)[..|old(opStack)| - i]
        invariant args == Reversed(old(opStack)[|old(opStack)| - i..])
      {
        ghost var taken := old(opStack)[|old(opStack)| - i - 1..];
        assert taken[1..] == old(opStack)[|old(opStack)| - i..];
        var v := Pop();
        args := args + [v];
      }
    }

    method LoadLocal(name: Text) returns (signal: Signal)
      modifies this`opStack
      ensures forall x :: Signalled(signal, At(x)) == Vats.LoadLocal(name, old(At(x)))
    {
      if callStack == [] || name !in callStack[|callStack| - 1].locals {
        return Crash;
      }
      opStack := opStack + [callStack[|callStack| - 1].locals[name]];
      return Go;
    }

    /** store_local. */
    method Store(name: Text, v: Hvalue)
      requires callStack != []
      modifies this`callStack
      ensures forall x :: At(x) == old(At(x)).Stored(name, v)
    {
      var last := |callStack| - 1;
      var frame := callStack[last];
      callStack := callStack[..last] + [frame.(locals := frame.locals[name := v])];
    }

    method StoreLocal(name: Text) returns (signal: Signal)
      modifies this`opStack, this`callStack, this`promises
      ensures forall x :: Signalled(signal, At(x)) == Vats.StoreLocal(name, old(At(x)))
    {
      if opStack == [] || callStack == [] {
        return Crash;
      }
      var v := Pop();
      if v.Promise? {
        if v.id as nat !in promises {
          return Crash;
        }
        var p := promises[v.id as nat];
        promises := promises[v.id as nat := p.(varNames := p.varNames + [name])];
      }
      Store(name, v);
      return Go;
    }

    method LoadEntity(name: Text) returns (signal: Signal)
      modifies this`opStack
      ensures forall x :: Signalled(signal, At(x)) == Vats.LoadEntity(name, old(At(x)))
    {
      if callStack == [] || callStack[|callStack| - 1].entity !in entities {
        return Crash;
      }
      var target := entities[callStack[|callStack| - 1].entity];
      if name !in target.data {
        return Crash;
      }
      opStack := opStack + [target.data[name]];
      return Go;
    }

    method StoreEntity(name: Text) returns (signal: Signal)
      modifies this`opStack, this`entities
      ensures forall x :: Signalled(signal, At(x)) == Vats.StoreEntity(name, old(At(x)))
    {
      if callStack == [] || callStack[|callStack| - 1].entity !in entities || opStack == [] {
        return Crash;
      }
      var current := callStack[|callStack| - 1].entity;
      var v := Pop();
      entities := entities[current := entities[current].(data := entities[current].data[name := v])];
      return Go;
    }

    method Compute(op: Op) returns (signal: Signal)
      requires op.Add? || op.Sub? || op.Mul? || op.Div?
      modifies this`opStack
      ensures forall x :: Signalled(signal, At(x)) == Vats.Compute(op, old(At(x)))
    {
      if |opStack| < 2 {
        return Crash;
      }
      var a0 := Pop();
      var a1 := Pop();
      if !a0.Hu8? || !a1.Hu8? {
        return Crash;
      }
      var r := Arithmetic(op, a0.n, a1.n);
      if r.None? {
        return Crash;
      }
      opStack := opStack + [Hu8(r.value)];
      return Go;
    }

    method CallFunction(x: nat, address: nat, argc: byte) returns (x': nat, signal: Signal)
      modifies this`opStack, this`callStack
      ensures Signalled(signal, At(x')) == Vats.CallFunction(address, argc, old(At(x)))
    {
      x', signal := x, Crash;
      if |opStack| < argc as nat + 1 {
        return;
      }
      var target := Pop();
      var args := PopArgs(argc);
      if !target.Address? {
        return;
      }
      opStack := opStack + args;
      callStack := callStack + [Frame.Frame(target.address.entity, map[], Some(x))];
      x', signal := address, Go;
    }

    method SendMessage(cx: Running, func: nat, argc: byte) returns (signal: Signal)
      modifies this`opStack, this`promises, this`sent
      ensures forall x :: Signalled(signal, At(x)) == Vats.SendMessage(cx, func, argc, old(At(x)))
    {
      if |opStack| < argc as nat + 1 {
        return Crash;
      }
      var args := PopArgs(argc);
      var id := |promises| % 256;
      var target := Pop();
      if !target.Address? {
        return Crash;
      }
      sent := sent + [Msg(cx.msg.dst, target.address, Request(args, func % U32, Some(id), false))];
      promises := promises[id := NewPromise(cx.srcPromise, Some(cx.msg.src))];
      opStack := opStack + [Promise(id)];
      return Go;
    }

    method AwaitPromise(x: nat) returns (signal: Signal)
      modifies this`opStack, this`promises
      ensures Signalled(signal, At(x)) == Vats.AwaitPromise(old(At(x)))
    {
      if opStack == [] {
        return Crash;
      }
      var v := Pop();
      if v.Promise? {
        if v.id as nat !in promises {
          return Crash;
        }
        var p := promises[v.id as nat];
        if !p.resolved {
          promises := promises[v.id as nat := p.(savePoint := (opStack, callStack), onResolve := p.onResolve + [x])];
        }
      }
      return Wait;
    }

    method ReturnFrom(x: nat) returns (x': nat, signal: Signal)
      modifies this`callStack
      ensures Signalled(signal, At(x')) == Vats.ReturnFrom(old(At(x)))
    {
      x', signal := x, Crash;
      if callStack == [] {
        return;
      }
      var frame := callStack[|callStack| - 1];
      callStack := callStack[..|callStack| - 1];
      if frame.returnAddress.Some? {
        x', signal := frame.returnAddress.value, Go;
      } else {
        signal := Stop;
      }
    }

    /** The match over instructions; x is already behind this one. */
    method Perform(cx: Running, op: Op, x: nat) returns (x': nat, signal: Signal)
      modifies this
      ensures Signalled(signal, At(x')) == Vats.Perform(cx, op, old(At(x)))
    {
      x', signal := x, Go;
      match op
      case Push(v) => opStack := opStack + [v];
      case Add => signal := Compute(op);
      case Sub => signal := Compute(op);
      case Mul => signal := Compute(op);
      case Div => signal := Compute(op);
      case Lload(name) => signal := LoadLocal(name);
      case Lstore(name) => signal := StoreLocal(name);
      case Eload(name) => signal := LoadEntity(name);
      case Estore(name) => signal := StoreEntity(name);
      case Call(address, argc) => x', signal := CallFunction(x, address, argc);
      case Message(func, argc) => signal := SendMessage(cx, func, argc);
      case Await => signal := AwaitPromise(x);
      case Ret => x', signal := ReturnFrom(x);
      case Nop =>
      case ForeignCall(_, _) => signal := Skip;
      case ConstructEntity(_, _) => signal := Skip;
    }

    /** run_expr: the loop, for at most fuel instructions, and what follows it. */
    method RunExpr(cx: Running, start: nat, fuel: nat) returns (signal: Signal, result: Option<Hvalue>, timeout: bool, x: nat)
      modifies this
      ensures timeout <==> Evaluate(cx, old(At(start)), fuel).None?
      ensures !timeout ==>
                Evaluate(cx, old(At(start)), fuel).value ==
                match signal
                case Crash => Crashed
                case Skip => Foreign
                case _ => Ended(At(x), result)
    {
      x, signal, result, timeout := start, Crash, None, false;
      if cx.msg.dst.entity !in entities {
        return;
      }
      signal := Go;
      var left := fuel;
      while signal == Go
        invariant signal == Go ==> Run(cx, old(At(start)), fuel) == Run(cx, At(x), left)
        invariant signal != Go ==> Run(cx, old(At(start)), fuel) == Some(Signalled(signal, At(x)))
        decreases left, signal == Go
      {
        if left == 0 {
          timeout := true;
          return;
        }
        left := left - 1;
        if x >= |cx.code| {
          signal := Stop;
        } else {
          var inst := Decode(x, cx.code);
          if inst.None? {
            signal := Crash;
          } else {
            var (next, op) := inst.value;
            x, signal := Perform(cx, op, next);
          }
        }
      }
      if signal == Crash || signal == Skip {
        return;
      }
      if |opStack| > 1 {
        signal := Crash;
      } else if signal == Stop {
        if opStack == [] {
          result := Some(NoValue);
        } else {
          var v := Pop();
          result := Some(v);
        }
      }
    }

    /** run_msg: the message to send back, if any. failed stands for a panic (or a foreign call),
        timeout for a run that does not end within fuel instructions. */
    method RunMsg(code: seq<byte>, msg: Msg, fuel: nat) returns (out: Option<Msg>, failed: bool, timeout: bool, ghost x: nat)
      modifies this
      ensures timeout ==> Handle(code, old(At(0)), msg, fuel).None?
      ensures failed && !timeout ==> Handle(code, old(At(0)), msg, fuel) == Some(Failed)
      ensures !failed && !timeout ==> Handle(code, old(At(0)), msg, fuel) == Some(Handled(At(x), out))
    {
      if msg.contents.Request? {
        out, failed, timeout, x := RunRequest(code, msg, fuel);
      } else {
        out, failed, timeout, x := RunResponse(code, msg, fuel);
      }
    }

    /** The three loaders, run afresh for every request. */
    method LoadFunctions(code: seq<byte>) returns (table: Table<nat, Place>, panicked: bool)
      ensures if panicked then FunctionTable(code).None? else FunctionTable(code) == Some(table)
    {
      table, panicked := map[], true;
      NamedInBounds();
      FunctionInBounds();
      hide ReadTable, ReadNamed, ReadFunction, Gather, InBounds;
      assert code[0..] == code;
      var z, data, bad := LoadNamedTable(0, code);
      if bad {
        return;
      }
      var q, inocs, bad' := LoadNamedTable(0, code[z..]);
      if bad' {
        return;
      }
      assert code[z..][0..] == code[z..] && code[q + z..][0..] == code[q + z..];
      var x;
      x, table, panicked := LoadFunctionTable(0, code[q + z..]);
    }

    method RunRequest(code: seq<byte>, msg: Msg, fuel: nat) returns (out: Option<Msg>, failed: bool, timeout: bool, ghost x: nat)
      requires msg.contents.Request?
      modifies this
      ensures timeout ==> HandleRequest(code, old(At(0)), msg, fuel).None?
      ensures failed && !timeout ==> HandleRequest(code, old(At(0)), msg, fuel) == Some(Failed)
      ensures !failed && !timeout ==> HandleRequest(code, old(At(0)), msg, fuel) == Some(Handled(At(x), out))
    {
      out, failed, timeout, x := None, true, false, 0;
      var table: Table<nat, Place>, panicked := LoadFunctions(code);
      if panicked || msg.dst.entity !in entities {
        return;
      }
      var kind, func := entities[msg.dst.entity].kind, msg.contents.func;
      callStack := callStack + [Frame.Frame(0, map[], None)];
      opStack := opStack + msg.contents.args;
      if kind !in table || func !in table[kind] {
        return;
      }
      var start := table[kind][func].start;
      var signal, result, late, end := RunExpr(Running(code, msg, msg.contents.srcPromise), start, fuel);
      x, timeout := end, late;
      if timeout || signal == Crash || signal == Skip {
        return;
      }
      failed := false;
      if !msg.contents.noResponse && result.Some? {
        out := Some(Msg(msg.dst, msg.src, Response(result.value, msg.contents.srcPromise)));
      }
    }

    method RunResponse(code: seq<byte>, msg: Msg, fuel: nat) returns (out: Option<Msg>, failed: bool, timeout: bool, ghost x: nat)
      requires msg.contents.Response?
      modifies this
      ensures timeout ==> HandleResponse(code, old(At(0)), msg, fuel).None?
      ensures failed && !timeout ==> HandleResponse(code, old(At(0)), msg, fuel) == Some(Failed)
      ensures !failed && !timeout ==> HandleResponse(code, old(At(0)), msg, fuel) == Some(Handled(At(x), out))
    {
      out, failed, timeout, x := None, false, false, 0;
      if msg.contents.dstPromise.None? {
        return;
      }
      var id := msg.contents.dstPromise.value % 256;
      if id !in promises {
        failed := true;
        return;
      }
      var p := promises[id];
      assert p.onResolve[0..] == p.onResolve;
      for i := 0 to |p.onResolve|
        invariant !failed && !timeout
        invariant ResumeAll(code, old(At(0)), msg, p, p.onResolve, None, fuel)
               == ResumeAll(code, At(x), msg, p, p.onResolve[i..], out, fuel)
      {
        assert p.onResolve[i..][1..] == p.onResolve[i + 1..];
        if p.varNames == [] || p.savePoint.1 == [] {
          failed := true;
          return;
        }
        opStack := p.savePoint.0;
        callStack := p.savePoint.1;
        Store(p.varNames[0], msg.contents.result);
        var signal, result, late, end := RunExpr(Running(code, msg, p.srcPromise), p.onResolve[i], fuel);
        x, timeout := end, late;
        if timeout || signal == Crash || signal == Skip {
          failed := true;
          return;
        }
        if result.Some? && p.srcPromise.Some? {
          if p.srcEntity.None? {
            failed := true;
            return;
          }
          out := Some(Msg(msg.dst, p.srcEntity.value, Response(result.value, p.srcPromise)));
        }
      }
    }
  }
}
