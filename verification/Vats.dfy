/** Vats, their stacks and promises (src/vm_core.rs), and one instruction of the machine (src/vm.rs:48-270). */
module Vats {
  import opened Bytes
  import opened Opcodes

  datatype Contents =
    | Request(args: seq<Hvalue>, func: nat, srcPromise: Option<nat>, noResponse: bool)
    | Response(result: Hvalue, dstPromise: Option<nat>)

  datatype Msg = Msg(src: EntityAddress, dst: EntityAddress, contents: Contents)

  type Locals = map<Text, Hvalue>

  datatype Frame = Frame(entity: nat, locals: Locals, returnAddress: Option<nat>)

  datatype PromiseState = PromiseState(
    onResolve: seq<nat>,
    resolved: bool,
    savePoint: (seq<Hvalue>, seq<Frame>),
    varNames: seq<Text>,
    srcPromise: Option<nat>,
    srcEntity: Option<EntityAddress>)

  function NewPromise(srcPromise: Option<nat>, srcEntity: Option<EntityAddress>): PromiseState {
    PromiseState([], false, ([], []), [], srcPromise, srcEntity)
  }

  datatype EntityState = EntityState(kind: nat, data: map<Text, Hvalue>)

  type Entities = map<nat, EntityState>

  // What run_expr reads and writes: the program counter, the vat, and the channel it sends on.
  datatype Machine = Machine(
    pc: nat,
    opStack: seq<Hvalue>,
    callStack: seq<Frame>,
    entities: Entities,
    promises: map<nat, PromiseState>,
    sent: seq<Msg>)
  {
    function Pushed(v: Hvalue): Machine {
      this.(opStack := opStack + [v])
    }

    function Popped(n: nat): Machine
      requires n <= |opStack|
    {
      this.(opStack := opStack[..|opStack| - n])
    }

    function Top(): Hvalue
      requires opStack != []
    {
      opStack[|opStack| - 1]
    }

    /** The vector that n pops fill: the top of the stack first. */
    function Taken(n: nat): (args: seq<Hvalue>)
      requires n <= |opStack|
      ensures |args| == n
    {
      Reversed(opStack[|opStack| - n..])
    }

    function Frame(): Frame
      requires callStack != []
    {
      callStack[|callStack| - 1]
    }

    /** store_local. */
    function Stored(name: Text, v: Hvalue): Machine
      requires callStack != []
    {
      var frame := Frame().(locals := Frame().locals[name := v]);
      this.(callStack := callStack[..|callStack| - 1] + [frame])
    }
  }

  function Reversed<T>(s: seq<T>): (r: seq<T>)
    ensures |r| == |s|
  {
    if s == [] then [] else Reversed(s[1..]) + [s[0]]
  }

  // What stays fixed while run_expr runs.
  datatype Running = Running(code: seq<byte>, msg: Msg, srcPromise: Option<nat>)

  datatype Outcome = Next(m: Machine) | Halt(m: Machine) | Yield(m: Machine) | Panic | Unmodelled

  // ---- The instructions ----

  /** a0 was popped first. Rust's checked u8 arithmetic: None where it panics. */
  function Arithmetic(op: Op, a0: byte, a1: byte): Option<byte>
    requires op.Add? || op.Sub? || op.Mul? || op.Div?
  {
    var x, y := a0 as int, a1 as int;
    if op.Div? then
      if y == 0 then None else Checked(x / y)
    else Checked(if op.Add? then x + y else if op.Sub? then x - y else x * y)
  }

  function Checked(x: int): Option<byte> {
    if 0 <= x < 256 then Some(x) else None
  }

  function Compute(op: Op, m: Machine): Outcome
    requires op.Add? || op.Sub? || op.Mul? || op.Div?
  {
    if |m.opStack| < 2 then Panic
    else
      var a0, a1 := m.opStack[|m.opStack| - 1], m.opStack[|m.opStack| - 2];
      if !a0.Hu8? || !a1.Hu8? then Panic
      else
        match Arithmetic(op, a0.n, a1.n)
        case None => Panic
        case Some(r) => Next(m.Popped(2).Pushed(Hu8(r)))
  }

  function LoadLocal(name: Text, m: Machine): Outcome {
    if m.callStack == [] || name !in m.Frame().locals then Panic
    else Next(m.Pushed(m.Frame().locals[name]))
  }

  /** Storing a promise also records the variable that will receive its value. */
  function StoreLocal(name: Text, m: Machine): Outcome {
    if m.opStack == [] || m.callStack == [] then Panic
    else
      var v := m.Top();
      if v.Promise? then
        if v.id as nat !in m.promises then Panic
        else
          var p := m.promises[v.id as nat];
          Next(m.Popped(1).(promises := m.promises[v.id as nat := p.(varNames := p.varNames + [name])]).Stored(name, v))
      else Next(m.Popped(1).Stored(name, v))
  }

  function LoadEntity(name: Text, m: Machine): Outcome {
    if m.callStack == [] || m.Frame().entity !in m.entities || name !in m.entities[m.Frame().entity].data then Panic
    else Next(m.Pushed(m.entities[m.Frame().entity].data[name]))
  }

  function StoreEntity(name: Text, m: Machine): Outcome {
    if m.callStack == [] || m.Frame().entity !in m.entities || m.opStack == [] then Panic
    else
      var target := m.entities[m.Frame().entity];
      Next(m.Popped(1).(entities := m.entities[m.Frame().entity := target.(data := target.data[name := m.Top()])]))
  }

  function CallFunction(address: nat, argc: byte, m: Machine): Outcome {
    if |m.opStack| < argc as nat + 1 || !m.Top().Address? then Panic
    else
      var rest := m.Popped(1);
      Next(rest.(pc := address,
                 opStack := rest.Popped(argc).opStack + rest.Taken(argc),
                 callStack := m.callStack + [Frame.Frame(m.Top().address.entity, map[], Some(m.pc))]))
  }

  function SendMessage(cx: Running, func: nat, argc: byte, m: Machine): Outcome {
    if |m.opStack| < argc as nat + 1 || !m.Popped(argc).Top().Address? then Panic
    else
      var target := m.Popped(argc).Top().address;
      var id := |m.promises| % 256;
      var out := Msg(cx.msg.dst, target, Request(m.Taken(argc), func % U32, Some(id), false));
      Next(m.Popped(argc as nat + 1)
            .(sent := m.sent + [out], promises := m.promises[id := NewPromise(cx.srcPromise, Some(cx.msg.src))])
            .Pushed(Promise(id)))
  }

  /** Await always yields. An unresolved promise remembers where and in what state to go on. */
  function AwaitPromise(m: Machine): Outcome {
    if m.opStack == [] then Panic
    else
      var v, rest := m.Top(), m.Popped(1);
      if !v.Promise? then Yield(rest)
      else if v.id as nat !in m.promises then Panic
      else
        var p := m.promises[v.id as nat];
        if p.resolved then Yield(rest)
        else
          var waiting := p.(savePoint := (rest.opStack, rest.callStack), onResolve := p.onResolve + [m.pc]);
          Yield(rest.(promises := m.promises[v.id as nat := waiting]))
  }

  function ReturnFrom(m: Machine): Outcome {
    if m.callStack == [] then Panic
    else
      var rest := m.(callStack := m.callStack[..|m.callStack| - 1]);
      match m.Frame().returnAddress
      case Some(address) => Next(rest.(pc := address))
      case None => Halt(rest)
  }

  /** One instruction; m.pc is already behind it. Foreign calls and constructors are not modelled. */
  function Perform(cx: Running, op: Op, m: Machine): Outcome {
    match op
    case Push(v) => Next(m.Pushed(v))
    case Add => Compute(op, m)
    case Sub => Compute(op, m)
    case Mul => Compute(op, m)
    case Div => Compute(op, m)
    case Lload(name) => LoadLocal(name, m)
    case Lstore(name) => StoreLocal(name, m)
    case Eload(name) => LoadEntity(name, m)
    case Estore(name) => StoreEntity(name, m)
    case Call(address, argc) => CallFunction(address, argc, m)
    case Message(func, argc) => SendMessage(cx, func, argc, m)
    case Await => AwaitPromise(m)
    case Ret => ReturnFrom(m)
    case Nop => Next(m)
    case ForeignCall(_, _) => Unmodelled
    case ConstructEntity(_, _) => Unmodelled
  }

  function Step(cx: Running, m: Machine): Outcome {
    if m.pc >= |cx.code| then Halt(m)
    else
      match Decode(m.pc, cx.code)
      case None => Panic
      case Some((next, op)) => Perform(cx, op, m.(pc := next))
  }

  // ---- Many instructions ----

  /** n instructions that all go on. */
  function Exec(cx: Running, m: Machine, n: nat): Option<Machine>
    decreases n
  {
    if n == 0 then Some(m)
    else
      match Step(cx, m)
      case Next(m') => Exec(cx, m', n - 1)
      case _ => None
  }

  lemma {:induction false} ExecJoin(cx: Running, m: Machine, a: nat, b: nat)
    requires Exec(cx, m, a).Some?
    ensures Exec(cx, m, a + b) == Exec(cx, Exec(cx, m, a).value, b)
    decreases a
  {
    hide Step;
    if a > 0 {
      ExecJoin(cx, Step(cx, m).m, a - 1, b);
    }
  }

  /** The loop of run_expr, for at most fuel instructions. */
  function Run(cx: Running, m: Machine, fuel: nat): (r: Option<Outcome>)
    ensures r.Some? ==> !r.value.Next?
    decreases fuel
  {
    if fuel == 0 then None
    else
      match Step(cx, m)
      case Next(m') => Run(cx, m', fuel - 1)
      case end => Some(end)
  }

  lemma {:induction false} RunAfter(cx: Running, m: Machine, n: nat, fuel: nat)
    requires Exec(cx, m, n).Some?
    ensures Run(cx, m, n + fuel) == Run(cx, Exec(cx, m, n).value, fuel)
    decreases n
  {
    hide Step;
    if n > 0 {
      RunAfter(cx, Step(cx, m).m, n - 1, fuel);
    }
  }

  /** More instructions than a run needs change nothing. */
  lemma {:induction false} RunMore(cx: Running, m: Machine, fuel: nat, more: nat)
    requires Run(cx, m, fuel).Some?
    ensures Run(cx, m, fuel + more) == Run(cx, m, fuel)
    decreases fuel
  {
    hide Step;
    if Step(cx, m).Next? {
      RunMore(cx, Step(cx, m).m, fuel - 1, more);
    }
  }
}
