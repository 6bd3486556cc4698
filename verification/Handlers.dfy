/** The handlers whose discipline Await relies on, from their source: one that asks and awaits, and what
    it does when the answer comes. */
module Handlers {
  import opened Bytes
  import opened Opcodes
  import opened Tables
  import opened Syntax
  import opened Codegen
  import opened Generator
  import opened Linking
  import opened Vats
  import opened VM
  import opened Semantics
  import opened Simulation
  import opened Correctness
  import opened EndToEnd
  import opened Await

  // ---- What asking compiles to ----

  /** Sending a message into a new variable and awaiting that variable at once. */
  function AskStmts(name: Text, receiver: Identifier, num: u32, args: seq<Expr>): seq<Stmt> {
    [Definition(Identifier(name, Undecided), Expr.Send(receiver, num, args)), Stmt.Wait(Variable(Identifier(name, Undecided)))]
  }

  /** The four instructions behind its target and arguments, from at[0] up to at[4]. */
  ghost predicate AskLies(code: seq<byte>, at: seq<nat>, func: nat, argc: nat, name: Text) {
    && |at| == 5 && func < U32 && argc < 256
    && Lies(code, at[0], at[1], [Message(func, argc)]) && Lies(code, at[1], at[2], [Lstore(name)])
    && Lies(code, at[2], at[3], [Lload(name)]) && Lies(code, at[3], at[4], [Op.Await])
  }

  /** What the visitors make of it: the target, the arguments, the four instructions, and the rest. */
  lemma AskPlaced(b: Build, name: Text, receiver: Identifier, num: u32, args: seq<Expr>, rest: seq<Stmt>, scope: Scope, x: nat, y: nat)
    returns (load: nat, at: seq<nat>)
    requires ReadyBody(b, AskStmts(name, receiver, num, args) + rest, scope, x, y) && |args| < 256
    ensures receiver.target == Undecided && Placed(b, x, load, [Plain(LoadOp(Refer(receiver, scope)))])
    ensures |at| == 5 && AskLies(b.code, at, num, |args|, name) && ReadyArgs(b, args, scope, load, at[0])
    ensures ReadyBody(b, rest, scope.(locals := scope.locals + {name}), at[4], y)
  {
    hide Placed, Lies;
    var body, inner := AskStmts(name, receiver, num, args) + rest, scope.(locals := scope.locals + {name});
    var mid := FirstStmt(b, body, scope, x, y);
    assert body[1..][0] == body[1] && body[1..][1..] == rest;
    var end := FirstStmt(b, body[1..], inner, mid, y);
    var at0, at1;
    load, at0, at1 := SendPlaced(b, name, receiver, num, args, scope, x, mid);
    var at3 := WaitPlaced(b, name, inner, mid, end);
    at := [at0, at1, mid, at3, end];
  }

  lemma SendPlaced(b: Build, name: Text, receiver: Identifier, num: u32, args: seq<Expr>, scope: Scope, x: nat, y: nat)
    returns (load: nat, at: nat, store: nat)
    requires ReadyStmt(b, AskStmts(name, receiver, num, args)[0], scope, x, y) && |args| < 256
    ensures receiver.target == Undecided && Placed(b, x, load, [Plain(LoadOp(Refer(receiver, scope)))])
    ensures ReadyArgs(b, args, scope, load, at)
    ensures Lies(b.code, at, store, [Message(num, |args|)]) && Lies(b.code, store, y, [Lstore(name)])
  {
    hide Lies;
    var inner := scope.(locals := scope.locals + {name});
    if name in scope.locals {
      assert inner == scope;
    } else {
      ReferArgsUnmentioned(args, scope, name);
    }
    var first, middle := [Plain(LoadOp(Refer(receiver, scope)))], GenArgs(ReferArgs(args, scope), b.naming);
    store := PlacedSplit(b, x, y, first + middle + [Plain(Message(num, |args|))], [Plain(Lstore(name))]);
    at := PlacedSplit(b, x, store, first + middle, [Plain(Message(num, |args|))]);
    load := PlacedSplit(b, x, at, first, middle);
    PlacedPlain(b, at, store, Message(num, |args|));
    PlacedPlain(b, store, y, Lstore(name));
  }

  lemma WaitPlaced(b: Build, name: Text, scope: Scope, x: nat, y: nat) returns (mid: nat)
    requires ReadyStmt(b, Stmt.Wait(Variable(Identifier(name, Undecided))), scope, x, y) && name in scope.locals
    ensures Lies(b.code, x, mid, [Lload(name)]) && Lies(b.code, mid, y, [Op.Await])
  {
    hide Lies;
    mid := PlacedSplit(b, x, y, [Plain(Lload(name))], [Plain(Op.Await)]);
    PlacedPlain(b, x, mid, Lload(name));
    PlacedPlain(b, mid, y, Op.Await);
  }

  lemma PlacedPlain(b: Build, x: nat, y: nat, op: Op)
    requires Placed(b, x, y, [Plain(op)])
    ensures Lies(b.code, x, y, [op])
  {
    assert LinkedOps([Plain(op)], b.absolute) == [op];
  }

  // ---- Running it ----

  /** The state in which it yields. */
  function Asking(cx: Running, m: Machine, target: EntityAddress, args: seq<Hvalue>, func: nat, name: Text, y: nat): Machine
    requires m.callStack != []
  {
    var id := |m.promises| % 256;
    var q := Msg(cx.msg.dst, target, Request(Reversed(args), func, Some(id), false));
    var stored := m.(opStack := []).Stored(name, Promise(id));
    var p := PromiseState([y], false, ([], stored.callStack), [name], cx.srcPromise, Some(cx.msg.src));
    stored.(pc := y, sent := m.sent + [q], promises := m.promises[id := p])
  }

  // The states behind the first three instructions.

  function Sent(cx: Running, m: Machine, target: EntityAddress, args: seq<Hvalue>, func: nat, x: nat): Machine {
    var id := |m.promises| % 256;
    var q := Msg(cx.msg.dst, target, Request(Reversed(args), func, Some(id), false));
    m.(pc := x, opStack := [Promise(id)], sent := m.sent + [q],
       promises := m.promises[id := NewPromise(cx.srcPromise, Some(cx.msg.src))])
  }

  function Kept(cx: Running, m: Machine, target: EntityAddress, args: seq<Hvalue>, func: nat, name: Text, x: nat): Machine
    requires m.callStack != []
  {
    var id, sent := |m.promises| % 256, Sent(cx, m, target, args, func, x);
    sent.(opStack := [], promises := m.promises[id := NewPromise(cx.srcPromise, Some(cx.msg.src)).(varNames := [name])])
        .Stored(name, Promise(id))
  }

  lemma MessageRuns(cx: Running, m: Machine, target: EntityAddress, args: seq<Hvalue>, func: nat, x: nat, y: nat)
    requires |args| < 256 && func < U32 && Lies(cx.code, x, y, [Message(func, |args|)])
    requires m.pc == x && m.opStack == [Address(target)] + args
    ensures Step(cx, m) == Next(Sent(cx, m, target, args, func, y))
  {
    hide Lies, Step, Reversed;
    LiesOne(cx, x, y, Message(func, |args|), m);
    assert m.opStack[|m.opStack| - |args|..] == args;
    assert m.Popped(|args|).opStack == [Address(target)];
    assert m.opStack[..|m.opStack| - (|args| + 1)] == [];
  }

  lemma StoreRuns(cx: Running, m: Machine, target: EntityAddress, args: seq<Hvalue>, func: nat, name: Text, m1: Machine, y: nat)
    requires m.callStack != [] && m1 == Sent(cx, m, target, args, func, m1.pc) && Lies(cx.code, m1.pc, y, [Lstore(name)])
    ensures Step(cx, m1) == Next(Kept(cx, m, target, args, func, name, y))
  {
    hide Lies, Step, Reversed;
    LiesOne(cx, m1.pc, y, Lstore(name), m1);
    assert [] + [name] == [name];
  }

  lemma LoadRuns(cx: Running, m: Machine, target: EntityAddress, args: seq<Hvalue>, func: nat, name: Text, m2: Machine, y: nat)
    requires m.callStack != [] && m2 == Kept(cx, m, target, args, func, name, m2.pc) && Lies(cx.code, m2.pc, y, [Lload(name)])
    ensures Step(cx, m2) == Next(m2.(pc := y, opStack := [Promise(|m.promises| % 256)]))
  {
    hide Lies, Step, Reversed;
    LiesOne(cx, m2.pc, y, Lload(name), m2);
  }

  lemma AwaitRuns(cx: Running, m: Machine, target: EntityAddress, args: seq<Hvalue>, func: nat, name: Text, m3: Machine, y: nat)
    requires m.callStack != [] && Lies(cx.code, m3.pc, y, [Op.Await])
    requires m3 == Kept(cx, m, target, args, func, name, m3.pc).(opStack := [Promise(|m.promises| % 256)])
    ensures Step(cx, m3) == Yield(Asking(cx, m, target, args, func, name, y))
  {
    hide Lies, Step, Reversed;
    LiesOne(cx, m3.pc, y, Op.Await, m3);
    assert [] + [y] == [y];
  }

  /** Sending, storing the promise and awaiting it: three instructions that go on and one that yields. */
  lemma AskRuns(cx: Running, m: Machine, target: EntityAddress, args: seq<Hvalue>, func: nat, name: Text,
                at: seq<nat>, fuel: nat)
    requires AskLies(cx.code, at, func, |args|, name)
    requires m.pc == at[0] && m.callStack != [] && m.opStack == [Address(target)] + args
    ensures Run(cx, m, 4 + fuel) == Some(Yield(Asking(cx, m, target, args, func, name, at[4])))
  {
    hide Lies, Step, Sent, Asking;
    var x, x1, x2, x3, y := at[0], at[1], at[2], at[3], at[4];
    var m1, m2 := Sent(cx, m, target, args, func, x1), Kept(cx, m, target, args, func, name, x2);
    var m3 := m2.(pc := x3, opStack := [Promise(|m.promises| % 256)]);
    Positions(cx, m, target, args, func, name, x1, x2, x3);
    MessageRuns(cx, m, target, args, func, x, x1);
    StoreRuns(cx, m, target, args, func, name, m1, x2);
    LoadRuns(cx, m, target, args, func, name, m2, x3);
    AwaitRuns(cx, m, target, args, func, name, m3, y);
    RunThrough(cx, m, m1, m2, m3, fuel);
  }

  lemma Positions(cx: Running, m: Machine, target: EntityAddress, args: seq<Hvalue>, func: nat, name: Text, x: nat, y: nat, z: nat)
    requires m.callStack != []
    ensures Sent(cx, m, target, args, func, x).pc == x && Kept(cx, m, target, args, func, name, y).pc == y
    ensures Kept(cx, m, target, args, func, name, y).(pc := z) == Kept(cx, m, target, args, func, name, z)
  {
    hide Reversed;
  }

  lemma RunThrough(cx: Running, m: Machine, m1: Machine, m2: Machine, m3: Machine, fuel: nat)
    requires Step(cx, m) == Next(m1) && Step(cx, m1) == Next(m2) && Step(cx, m2) == Next(m3) && Step(cx, m3).Yield?
    ensures Run(cx, m, 4 + fuel) == Some(Step(cx, m3))
  {
    hide Step;
    assert Run(cx, m3, 1 + fuel) == Some(Step(cx, m3));
    assert Run(cx, m2, 2 + fuel) == Some(Step(cx, m3));
    assert Run(cx, m1, 3 + fuel) == Some(Step(cx, m3));
  }

  /** A request whose handler gets to such code without having sent anything, with nothing else on its
      operand stack, is handled as Await's discipline demands. */
  lemma RequestAsks(code: seq<byte>, m: Machine, msg: Msg, n: nat, started: Machine, a: Machine,
                    target: EntityAddress, args: seq<Hvalue>, func: nat, name: Text, at: seq<nat>, fuel: nat)
    requires VatInv(m) && |m.promises| < 256 && msg.contents.Request?
    requires Starts(code, m, msg, started)
    requires Exec(Running(code, msg, msg.contents.srcPromise), started, n) == Some(a)
    requires a.promises == m.promises && a.sent == m.sent && a.callStack != []
    requires a.opStack == [Address(target)] + args
    requires AskLies(code, at, func, |args|, name) && a.pc == at[0]
    ensures var m' := Asking(Running(code, msg, msg.contents.srcPromise), a, target, args, func, name, at[4]);
            && Handle(code, m, msg, n + 4 + fuel) == Some(Handled(m', None))
            && Asked(m, msg, m', None)
  {
    hide Lies, Run, Exec, Starts, Asking, VatInv, Asked;
    var cx, y := Running(code, msg, msg.contents.srcPromise), at[4];
    RunAfter(cx, started, n, 4 + fuel);
    AskRuns(cx, a, target, args, func, name, at, fuel);
    AskingShape(cx, a, target, args, func, name, y);
    RequestYields(code, m, msg, started, n + (4 + fuel), Asking(cx, a, target, args, func, name, y));
    AskedFrom(cx, m, a, target, args, func, name, y);
  }

  lemma AskedFrom(cx: Running, m: Machine, a: Machine, target: EntityAddress, args: seq<Hvalue>, func: nat, name: Text, y: nat)
    requires VatInv(m) && |m.promises| < 256 && a.callStack != [] && a.promises == m.promises && a.sent == m.sent
    requires cx.msg.contents.Request? && cx.srcPromise == cx.msg.contents.srcPromise
    ensures Asked(m, cx.msg, Asking(cx, a, target, args, func, name, y), None)
  {
    hide Asking;
    AskingShape(cx, a, target, args, func, name, y);
  }

  lemma RequestYields(code: seq<byte>, m: Machine, msg: Msg, started: Machine, fuel: nat, m': Machine)
    requires msg.contents.Request? && Starts(code, m, msg, started) && m'.opStack == []
    requires Run(Running(code, msg, msg.contents.srcPromise), started, fuel) == Some(Yield(m'))
    ensures Handle(code, m, msg, fuel) == Some(Handled(m', None))
  {
    hide Run, FunctionTable;
  }

  lemma AskingShape(cx: Running, m: Machine, target: EntityAddress, args: seq<Hvalue>, func: nat, name: Text, y: nat)
    requires m.callStack != []
    ensures var m' := Asking(cx, m, target, args, func, name, y);
            var id := |m.promises| % 256;
            && m'.opStack == [] && |m'.sent| == |m.sent| + 1 && m'.sent[..|m.sent|] == m.sent
            && m'.sent[|m.sent|] == Msg(cx.msg.dst, target, Request(Reversed(args), func, Some(id), false))
            && (exists p: PromiseState :: m'.promises == m.promises[id := p] && p.onResolve == [y]
                  && p.srcPromise == cx.srcPromise && p.srcEntity == Some(cx.msg.src))
  {
    hide Reversed;
    var id := |m.promises| % 256;
    var m' := Asking(cx, m, target, args, func, name, y);
    assert m'.promises == m.promises[id := m'.promises[id]];
  }

  /** How run_msg starts a request. */
  ghost predicate Starts(code: seq<byte>, m: Machine, msg: Msg, started: Machine)
    requires msg.contents.Request?
  {
    var table := FunctionTable(code);
    && table.Some? && msg.dst.entity in m.entities
    && m.entities[msg.dst.entity].kind in table.value
    && msg.contents.func in table.value[m.entities[msg.dst.entity].kind]
    && started == m.(pc := table.value[m.entities[msg.dst.entity].kind][msg.contents.func].start,
                     opStack := m.opStack + msg.contents.args,
                     callStack := m.callStack + [Frame.Frame(0, map[], None)])
  }

  /** A promise on which one handler of a root frame waits, with an empty operand stack. */
  ghost predicate Waiting(p: PromiseState, y: nat) {
    && p.onResolve == [y] && p.savePoint.0 == [] && p.savePoint.1 != [] && p.varNames != []
    && p.savePoint.1[|p.savePoint.1| - 1].returnAddress.None? && (p.srcPromise.Some? ==> p.srcEntity.Some?)
  }

  /** The rest of a body, resumed on the saved stacks, runs to its end. */
  lemma RestRuns(b: Build, m: Machine, msg: Msg, p: PromiseState, depth: nat, body: seq<Stmt>, y: nat, limit: nat)
    returns (n: nat, m': Machine)
    requires Installed(b) && msg.contents.Response? && Waiting(p, y) && msg.dst.entity in m.entities
    requires ReadyBody(b, body, b.ScopeFor(Resumed(m, p, msg, y).Frame().locals), y, limit)
    requires MeaningBody(b, depth, body, Resumed(m, p, msg, y)).Some?
    ensures var (v, es) := MeaningBody(b, depth, body, Resumed(m, p, msg, y)).value;
            && m'.entities == es && m'.opStack == [] && m'.promises == m.promises && m'.sent == m.sent
            && forall fuel :: fuel >= n ==> ResumeAt(b.code, m, msg, p, y, fuel) == Some(Ended(m', Some(v)))
  {
    hide Step, Installed, ReadyBody, MeaningBody, Exec;
    var cx, resumed := Running(b.code, msg, p.srcPromise), Resumed(m, p, msg, y);
    var v := MeaningBody(b, depth, body, resumed).value.0;
    var n0, end, z := BodyRuns(b, cx, depth, body, y, limit, resumed);
    var last := end.(pc := z, callStack := end.callStack[..|end.callStack| - 1]);
    n, m' := n0 + 1, last.Popped(1);
    assert last.opStack == [v];
    RestHalts(cx, resumed, n0, end, last);
    ResumeEnds(b.code, m, msg, p, y, n, last);
  }

  lemma RestHalts(cx: Running, m: Machine, n: nat, end: Machine, last: Machine)
    requires Exec(cx, m, n) == Some(end) && Vats.Step(cx, end) == Halt(last)
    ensures forall fuel :: fuel > n ==> Run(cx, m, fuel) == Some(Halt(last))
  {
    hide Exec, Vats.Step;
    forall fuel | fuel > n
      ensures Run(cx, m, fuel) == Some(Halt(last))
    {
      RunAfter(cx, m, n, fuel - n);
    }
  }

  lemma ResumeEnds(code: seq<byte>, m: Machine, msg: Msg, p: PromiseState, y: nat, n: nat, last: Machine)
    requires msg.contents.Response? && Waiting(p, y) && msg.dst.entity in m.entities && |last.opStack| == 1
    requires forall fuel :: fuel >= n ==> Run(Running(code, msg, p.srcPromise), Resumed(m, p, msg, y), fuel) == Some(Halt(last))
    ensures forall fuel :: fuel >= n ==> ResumeAt(code, m, msg, p, y, fuel) == Some(Ended(last.Popped(1), Some(last.Top())))
  {
    hide Run;
    forall fuel | fuel >= n
      ensures ResumeAt(code, m, msg, p, y, fuel) == Some(Ended(last.Popped(1), Some(last.Top())))
    {
      assert Run(Running(code, msg, p.srcPromise), Resumed(m, p, msg, y), fuel) == Some(Halt(last));
    }
  }

  /** The answer to the promise resumes the rest of the body with the result in the awaited variable: it
      finishes, and whoever the handler worked for is sent what the rest of the body means. */
  lemma ResponseFinishes(b: Build, m: Machine, msg: Msg, id: nat, depth: nat, body: seq<Stmt>, y: nat, limit: nat)
    returns (n: nat, m': Machine)
    requires Installed(b) && msg.contents.Response? && msg.contents.dstPromise == Some(id) && id < 256 && id in m.promises
    requires msg.dst.entity in m.entities && m.sent == [] && Waiting(m.promises[id], y)
    requires ReadyBody(b, body, b.ScopeFor(Resumed(m, m.promises[id], msg, y).Frame().locals), y, limit)
    requires MeaningBody(b, depth, body, Resumed(m, m.promises[id], msg, y)).Some?
    ensures var p := m.promises[id];
            var (v, es) := MeaningBody(b, depth, body, Resumed(m, p, msg, y)).value;
            var out := if p.srcPromise.Some? then Some(Msg(msg.dst, p.srcEntity.value, Response(v, p.srcPromise))) else None;
            && m'.entities == es && m'.opStack == []
            && (forall fuel :: fuel >= n ==> Handle(b.code, m, msg, fuel) == Some(Handled(m', out)))
            && Finished(m, msg, m', out)
  {
    hide Installed, ReadyBody, MeaningBody, Resumed, ResumeAll;
    var p := m.promises[id];
    n, m' := RestRuns(b, m, msg, p, depth, body, y, limit);
    forall fuel | fuel >= n
      ensures Handle(b.code, m, msg, fuel) == Some(Forward(msg, p, ResumeAt(b.code, m, msg, p, y, fuel).value, None))
    {
      assert ResumeAt(b.code, m, msg, p, y, fuel).Some?;
      OneResume(b.code, m, msg, p, y, fuel);
    }
    hide ResumeAt;
  }

  function Resumed(m: Machine, p: PromiseState, msg: Msg, y: nat): Machine
    requires p.savePoint.1 != [] && p.varNames != [] && msg.contents.Response?
  {
    m.(pc := y, opStack := p.savePoint.0, callStack := p.savePoint.1).Stored(p.varNames[0], msg.contents.result)
  }

  lemma OneResume(code: seq<byte>, m: Machine, msg: Msg, p: PromiseState, y: nat, fuel: nat)
    requires msg.contents.Response? && p.onResolve == [y]
    requires ResumeAt(code, m, msg, p, y, fuel).Some? && Forward(msg, p, ResumeAt(code, m, msg, p, y, fuel).value, None).Handled?
    ensures ResumeAll(code, m, msg, p, p.onResolve, None, fuel)
         == Some(Forward(msg, p, ResumeAt(code, m, msg, p, y, fuel).value, None))
  {
    hide ResumeAt, Forward;
    var h := Forward(msg, p, ResumeAt(code, m, msg, p, y, fuel).value, None);
    assert p.onResolve[1..] == [];
    assert ResumeAll(code, h.m, msg, p, [], h.out, fuel) == Some(h);
  }

  // ---- From the source of a handler to its answer ----

  // A handler that asks once: what it does before, what it asks, and what it does with the answer.
  datatype Asker = Asker(begin: seq<Stmt>, name: Text, receiver: Identifier, num: u32, args: seq<Expr>, rest: seq<Stmt>)
  {
    function Body(): seq<Stmt> {
      begin + (AskStmts(name, receiver, num, args) + rest)
    }
  }

  // What is asked of whom, and in what state the handler waits.
  datatype Question = Question(locals: Locals, target: EntityAddress, values: seq<Hvalue>, entities: Entities)

  /** What the source says up to the question. */
  function QuestionOf(w: World, depth: nat, h: Asker, cur: nat, locals: Locals, es: Entities): Option<Question> {
    match EvalPrefix(w, depth, h.begin, cur, locals, es)
    case None => None
    case Some((locals', es')) =>
      match (Lookup(h.receiver.sym, cur, locals', es'), EvalArgs(w, depth, h.args, cur, locals', es'))
      case (Some(Address(target)), Some((values, es''))) =>
        if |values| < 256 then Some(Question(locals', target, values, es'')) else None
      case _ => None
  }

  /** The promise of a handler that waits: it knows whom to answer, and where and with what variables to
      go on with the rest of its body. */
  ghost predicate Suspended(b: Build, h: Asker, q: Question, msg: Msg, state: PromiseState, y: nat, limit: nat)
    requires msg.contents.Request?
  {
    && Waiting(state, y) && state.varNames == [h.name]
    && state.srcPromise == msg.contents.srcPromise && state.srcEntity == Some(msg.src)
    && (var frame := state.savePoint.1[|state.savePoint.1| - 1];
        frame.entity == 0 && frame.locals.Keys == q.locals.Keys + {h.name}
        && (forall sym :: sym in q.locals && sym != h.name ==> frame.locals[sym] == q.locals[sym]))
    && ReadyBody(b, h.rest, b.scope.(locals := q.locals.Keys + {h.name}), y, limit)
  }

  /** The code runs to the question as the source says. */
  lemma ReachesQuestion(b: Build, cx: Running, h: Asker, i: nat, values: seq<Hvalue>, depth: nat, m: Machine)
    returns (n: nat, a: Machine, at: seq<nat>, limit: nat)
    requires Installed(b) && cx.code == b.code && i < |b.functions| && (b.naming.entity, i) in b.absolute
    requires b.functions[i].body == h.Body() && |values| == |b.functions[i].params| && NoPromises(values)
    requires m.callStack != [] && m.Frame().locals == map[] && m.pc == b.Start(i) && m.opStack == Reversed(values)
    requires QuestionOf(b.World(), depth, h, m.Frame().entity, Bind(b.functions[i].params, values, map[]), m.entities).Some?
    ensures var q := QuestionOf(b.World(), depth, h, m.Frame().entity, Bind(b.functions[i].params, values, map[]), m.entities).value;
            && Exec(cx, m, n) == Some(a) && |at| == 5 && AskLies(b.code, at, h.num, |q.values|, h.name)
            && a == m.(pc := at[0], opStack := [Address(q.target)] + q.values, entities := q.entities,
                       callStack := m.callStack[..|m.callStack| - 1] + [m.Frame().(locals := q.locals)])
            && ReadyBody(b, h.rest, b.scope.(locals := q.locals.Keys + {h.name}), at[4], limit)
  {
    hide Placed, Step, Installed, ReadyBody, ReadyArgs, EvalPrefix, EvalArgs, AskLies, Perform;
    var params := b.functions[i].params;
    var mid;
    mid, limit := FunctionParts(b, i);
    ParamsRun(b, cx, params, values, [], b.Start(i), mid, m);
    var m1 := AfterParams(m, mid, [], Bind(params, values, map[]));
    BindKeys(params, values, map[]);
    assert m1.Frame().locals.Keys == Members(params);
    var n2, x := PrefixRuns(b, cx, depth, h.begin, AskStmts(h.name, h.receiver, h.num, h.args) + h.rest, mid, limit, m1);
    var (locals, es) := EvalPrefix(b.World(), depth, h.begin, m.Frame().entity, Bind(params, values, map[]), m.entities).value;
    var m2 := AfterParams(m1, x, [], locals).(entities := es);
    ExecJoin(cx, m, |params|, n2);
    var load;
    load, at := AskPlaced(b, h.name, h.receiver, h.num, h.args, h.rest, b.ScopeFor(locals), x, limit);
    PlacedOne(b, cx, x, load, Plain(LoadOp(Refer(h.receiver, b.ScopeFor(locals)))), m2);
    Simulation.LoadRuns(cx, h.receiver, b.ScopeFor(locals), m2.(pc := load));
    var target := Lookup(h.receiver.sym, m.Frame().entity, locals, es).value;
    var m3 := m2.(pc := load).Pushed(target);
    ExecOne(cx, m, |params| + n2, m3);
    var n4 := ArgsRun(b, cx, depth, h.args, load, at[0], m3);
    ExecJoin(cx, m, |params| + n2 + 1, n4);
    n, a := |params| + n2 + 1 + n4, Exec(cx, m3, n4).value;
  }

  lemma SuspendedBy(b: Build, cx: Running, h: Asker, q: Question, a: Machine, y: nat, limit: nat)
    requires cx.msg.contents.Request? && cx.srcPromise == cx.msg.contents.srcPromise && a.callStack != []
    requires a.Frame() == Frame.Frame(0, q.locals, None)
    requires ReadyBody(b, h.rest, b.scope.(locals := q.locals.Keys + {h.name}), y, limit)
    ensures var id := |a.promises| % 256;
            Suspended(b, h, q, cx.msg, Asking(cx, a, q.target, q.values, h.num, h.name, y).promises[id], y, limit)
  {
    hide ReadyBody, Reversed;
  }

  /** A request to a compiled handler that asks nothing is handled as the discipline demands too. */
  lemma HandlerFinishes(p: Project, d: nat, i: nat, values: seq<Hvalue>, depth: nat, msg: Msg, m: Machine)
    returns (needed: nat, m': Machine, out: Option<Msg>)
    requires p.Compiles() && p.Printable() && d < |p.defs| && p.Scoped(d) && i < |p.defs[d].functions|
    requires msg.contents.Request? && msg.contents.func == i && msg.contents.args == Reversed(values)
    requires m.opStack == [] && msg.dst.entity in m.entities && m.entities[msg.dst.entity].kind == d
    requires |values| == |p.defs[d].functions[i].params| && NoPromises(values)
    requires RequestMeaning(AsCompiled, p.defs[d].functions, i, values, depth, m.entities).Some?
    ensures Finished(m, msg, m', out)
    ensures forall fuel :: fuel >= needed ==> Handle(p.Code(), m, msg, fuel) == Some(Handled(m', out))
  {
    hide Handle, RequestMeaning, Project.Compiles, Project.Printable, Project.Scoped, Output;
    needed, m' := RequestMeans(p, d, i, values, depth, msg, m);
    var v := RequestMeaning(AsCompiled, p.defs[d].functions, i, values, depth, m.entities).value.0;
    out := if msg.contents.noResponse then None else Some(Msg(msg.dst, msg.src, Response(v, msg.contents.srcPromise)));
  }

  /** How the vat is left by a handler that asked. */
  ghost predicate LeftAsking(b: Build, h: Asker, q: Question, msg: Msg, m: Machine, m': Machine, y: nat, limit: nat)
    requires msg.contents.Request?
  {
    var id := |m.promises|;
    && Asked(m, msg, m', None) && m'.entities == q.entities && m'.opStack == []
    && m'.sent == [Msg(msg.dst, q.target, Request(Reversed(q.values), h.num, Some(id), false))]
    && Suspended(b, h, q, msg, m'.promises[id], y, limit)
  }

  lemma LeavesAsking(b: Build, h: Asker, q: Question, cx: Running, m: Machine, a: Machine, at: seq<nat>, limit: nat)
    requires VatInv(m) && |m.promises| < 256 && cx.msg.contents.Request? && cx.srcPromise == cx.msg.contents.srcPromise
    requires |at| == 5 && a.callStack != [] && a.Frame() == Frame.Frame(0, q.locals, None)
    requires a.promises == m.promises && a.sent == m.sent && a.entities == q.entities
    requires ReadyBody(b, h.rest, b.scope.(locals := q.locals.Keys + {h.name}), at[4], limit)
    ensures LeftAsking(b, h, q, cx.msg, m, Asking(cx, a, q.target, q.values, h.num, h.name, at[4]), at[4], limit)
  {
    hide ReadyBody, Suspended, Asked, Reversed;
    SuspendedBy(b, cx, h, q, a, at[4], limit);
    AskedFrom(cx, m, a, q.target, q.values, h.num, h.name, at[4]);
  }

  lemma BuildAsks(b: Build, h: Asker, i: nat, values: seq<Hvalue>, depth: nat, msg: Msg, m: Machine, started: Machine)
    returns (needed: nat, m': Machine, y: nat, limit: nat)
    requires Installed(b) && i < |b.functions| && (b.naming.entity, i) in b.absolute && b.functions[i].body == h.Body()
    requires msg.contents.Request? && Starts(b.code, m, msg, started) && VatInv(m) && |m.promises| < 256
    requires started.pc == b.Start(i) && started.opStack == Reversed(values)
    requires |values| == |b.functions[i].params| && NoPromises(values)
    requires QuestionOf(b.World(), depth, h, 0, Bind(b.functions[i].params, values, map[]), m.entities).Some?
    ensures forall fuel :: fuel >= needed ==> Handle(b.code, m, msg, fuel) == Some(Handled(m', None))
    ensures LeftAsking(b, h, QuestionOf(b.World(), depth, h, 0, Bind(b.functions[i].params, values, map[]), m.entities).value,
                       msg, m, m', y, limit)
  {
    hide Handle, Run, Exec, Installed, QuestionOf, AskLies, ReadyBody, Asking, Asked, LeftAsking, VatInv, FunctionTable;
    var q := QuestionOf(b.World(), depth, h, 0, Bind(b.functions[i].params, values, map[]), m.entities).value;
    var cx := Running(b.code, msg, msg.contents.srcPromise);
    var n, a, at;
    n, a, at, limit := ReachesQuestion(b, cx, h, i, values, depth, started);
    y, m', needed := at[4], Asking(cx, a, q.target, q.values, h.num, h.name, at[4]), n + 4;
    LeavesAsking(b, h, q, cx, m, a, at, limit);
    forall fuel | fuel >= needed
      ensures Handle(b.code, m, msg, fuel) == Some(Handled(m', None))
    {
      RequestAsks(b.code, m, msg, n, started, a, q.target, q.values, h.num, h.name, at, fuel - needed);
    }
  }

  lemma StartsThere(p: Project, d: nat, i: nat, values: seq<Hvalue>, msg: Msg, m: Machine)
    requires p.Compiles() && p.Printable() && d < |p.defs| && p.Scoped(d) && i < |p.defs[d].functions|
    requires msg.contents.Request? && msg.contents.func == i && msg.contents.args == Reversed(values)
    requires msg.dst.entity in m.entities && m.entities[msg.dst.entity].kind == d
    ensures (p.Build(d).naming.entity, i) in p.Build(d).absolute
    ensures Starts(p.Code(), m, msg, m.(pc := p.Build(d).Start(i), opStack := m.opStack + Reversed(values),
                                        callStack := m.callStack + [Frame.Frame(0, map[], None)]))
  {
    hide Project.Compiles, Project.Printable, Project.Scoped, Output, Reversed, FunctionTable, Rows.Loaded, ReadyFunction;
    FunctionInstalled(p, d, i);
    CodeShape(p);
  }

  /** A request to a compiled handler that asks: what the source says is asked of whom it says, nothing is
      answered yet, the promise is as the handler's discipline demands and holds what is needed to go on. */
  lemma HandlerAsks(p: Project, d: nat, i: nat, h: Asker, values: seq<Hvalue>, depth: nat, msg: Msg, m: Machine)
    returns (needed: nat, m': Machine, y: nat, limit: nat)
    requires p.Compiles() && p.Printable() && d < |p.defs| && p.Scoped(d) && i < |p.defs[d].functions|
    requires p.defs[d].functions[i].body == h.Body()
    requires msg.contents.Request? && msg.contents.func == i && msg.contents.args == Reversed(values)
    requires m.opStack == [] && msg.dst.entity in m.entities && m.entities[msg.dst.entity].kind == d
    requires VatInv(m) && |m.promises| < 256
    requires |values| == |p.defs[d].functions[i].params| && NoPromises(values)
    requires QuestionOf(World(AsCompiled, p.defs[d].functions), depth, h, 0,
                        Bind(p.defs[d].functions[i].params, values, map[]), m.entities).Some?
    ensures var q := QuestionOf(World(AsCompiled, p.defs[d].functions), depth, h, 0,
                                Bind(p.defs[d].functions[i].params, values, map[]), m.entities).value;
            LeftAsking(p.Build(d), h, q, msg, m, m', y, limit)
    ensures forall fuel :: fuel >= needed ==> Handle(p.Code(), m, msg, fuel) == Some(Handled(m', None))
  {
    hide Handle, Installed, ReadyFunction, QuestionOf, LeftAsking, VatInv, Project.Compiles, Project.Printable, Project.Scoped,
         Starts, Reversed, Output;
    FunctionInstalled(p, d, i);
    ProjectInstalled(p, d);
    EntityNumber(p, d);
    var started := m.(pc := p.Build(d).Start(i), opStack := m.opStack + Reversed(values),
                      callStack := m.callStack + [Frame.Frame(0, map[], None)]);
    assert [] + Reversed(values) == Reversed(values);
    StartsThere(p, d, i, values, msg, m);
    needed, m', y, limit := BuildAsks(p.Build(d), h, i, values, depth, msg, m, started);
  }

  /** Going on means the rest of the body, with the answer in its variable. */
  lemma ResumedMeans(b: Build, h: Asker, q: Question, msg: Msg, state: PromiseState, y: nat, limit: nat, m: Machine, r: Msg, depth: nat)
    requires msg.contents.Request? && r.contents.Response? && Suspended(b, h, q, msg, state, y, limit)
    ensures ReadyBody(b, h.rest, b.ScopeFor(Resumed(m, state, r, y).Frame().locals), y, limit)
    ensures MeaningBody(b, depth, h.rest, Resumed(m, state, r, y))
         == EvalBody(b.World(), depth, h.rest, 0, q.locals[h.name := r.contents.result], m.entities)
  {
    hide ReadyBody, EvalBody;
    var locals := Resumed(m, state, r, y).Frame().locals;
    assert locals == q.locals[h.name := r.contents.result];
    assert locals.Keys == q.locals.Keys + {h.name};
  }

  /** And whenever its answer comes, whatever the vat has handled in between: the handler finishes, and
      whoever sent the request is sent what the rest of the source means. */
  lemma HandlerAnswers(p: Project, d: nat, h: Asker, q: Question, msg: Msg, id: nat, y: nat, limit: nat,
                       m: Machine, r: Msg, depth: nat)
    returns (needed: nat, m': Machine)
    requires p.Compiles() && p.Printable() && d < |p.defs| && p.Scoped(d) && msg.contents.Request?
    requires m.sent == [] && id < 256 && id in m.promises && Suspended(p.Build(d), h, q, msg, m.promises[id], y, limit)
    requires r.contents.Response? && r.contents.dstPromise == Some(id) && r.dst.entity in m.entities
    requires EvalBody(World(AsCompiled, p.defs[d].functions), depth, h.rest, 0,
                      q.locals[h.name := r.contents.result], m.entities).Some?
    ensures var (v, es) := EvalBody(World(AsCompiled, p.defs[d].functions), depth, h.rest, 0,
                                    q.locals[h.name := r.contents.result], m.entities).value;
            var out := if msg.contents.srcPromise.Some? then Some(Msg(r.dst, msg.src, Response(v, msg.contents.srcPromise))) else None;
            && m'.entities == es && m'.opStack == [] && Finished(m, r, m', out)
            && forall fuel :: fuel >= needed ==> Handle(p.Code(), m, r, fuel) == Some(Handled(m', out))
  {
    hide Handle, Installed, ReadyBody, EvalBody, Output, Resumed, Finished;
    ProjectInstalled(p, d);
    ResumedMeans(p.Build(d), h, q, msg, m.promises[id], y, limit, m, r, depth);
    needed, m' := ResponseFinishes(p.Build(d), m, r, id, depth, h.rest, y, limit);
  }
}
