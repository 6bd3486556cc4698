/** The compiler is correct: the linked code of an expression, a body or a function, run by the
    machine, does what the source means. */
module Correctness {
  import opened Bytes
  import opened Opcodes
  import opened Syntax
  import opened Codegen
  import opened Generator
  import opened Vats
  import opened Semantics
  import opened Simulation

  /** After an expression: its value on the stack, its effect on the entities, all else as it was. */
  function Evaluated(m: Machine, y: nat, values: seq<Hvalue>, es: Entities): Machine {
    m.(pc := y, opStack := m.opStack + values, entities := es)
  }

  lemma ExecOne(cx: Running, m: Machine, n: nat, m': Machine)
    requires Exec(cx, m, n).Some? && Step(cx, Exec(cx, m, n).value) == Next(m')
    ensures Exec(cx, m, n + 1) == Some(m')
  {
    ExecJoin(cx, m, n, 1);
    assert Exec(cx, m', 0) == Some(m');
  }

  // ---- Parameters ----

  lemma {:induction false} ReversedPop<T>(s: seq<T>)
    requires s != []
    ensures Reversed(s)[|s| - 1] == s[0] && Reversed(s)[..|s| - 1] == Reversed(s[1..])
  {
  }

  function AfterParams(m: Machine, y: nat, rest: seq<Hvalue>, locals: Locals): Machine
    requires m.callStack != []
  {
    m.(pc := y, opStack := rest, callStack := m.callStack[..|m.callStack| - 1] + [m.Frame().(locals := locals)])
  }

  lemma ParamStep(b: Build, cx: Running, name: Text, values: seq<Hvalue>, rest: seq<Hvalue>, x: nat, y: nat, m: Machine)
    requires cx.code == b.code && Placed(b, x, y, [Plain(Lstore(name))])
    requires values != [] && !values[0].Promise?
    requires m.pc == x && m.callStack != [] && m.opStack == rest + Reversed(values)
    ensures Step(cx, m) == Next(AfterParams(m, y, rest + Reversed(values[1..]), m.Frame().locals[name := values[0]]))
  {
    hide Placed, Step, Perform;
    PlacedOne(b, cx, x, y, Plain(Lstore(name)), m);
    ReversedPop(values);
    var before := m.(pc := y, opStack := rest + Reversed(values[1..]));
    assert m.(pc := y) == before.Pushed(values[0]);
    hide Reversed;
    StorePerforms(cx, Identifier(name, LocalVar), values[0], before);
  }

  /** The caller pushed the arguments in order, Call reversed them, and the stores at the start of the
      function take them one by one: parameter i gets argument i. */
  lemma {:induction false} ParamsRun(b: Build, cx: Running, params: seq<Text>, values: seq<Hvalue>, rest: seq<Hvalue>,
                                     x: nat, y: nat, m: Machine)
    requires cx.code == b.code && Placed(b, x, y, GenParams(params))
    requires |params| == |values| && NoPromises(values)
    requires m.pc == x && m.callStack != [] && m.opStack == rest + Reversed(values)
    ensures Exec(cx, m, |params|) == Some(AfterParams(m, y, rest, Bind(params, values, m.Frame().locals)))
    decreases params
  {
    hide Placed, Step;
    if params == [] {
      SweepNone(b, x, y);
      assert rest + [] == rest;
      assert m.callStack == m.callStack[..|m.callStack| - 1] + [m.Frame()];
    } else {
      var mid := PlacedSplit(b, x, y, [Plain(Lstore(params[0]))], GenParams(params[1..]));
      ParamStep(b, cx, params[0], values, rest, x, mid, m);
      ParamsRun(b, cx, params[1..], values[1..], rest, mid, y, Step(cx, m).m);
    }
  }

  lemma SweepNone(b: Build, x: nat, y: nat)
    requires Placed(b, x, y, [])
    ensures x == y
  {
    SweepEmpty(b.code, x, y);
  }

  // ---- Expressions, arguments, bodies and calls ----

  ghost predicate Fits(b: Build, cx: Running, m: Machine, x: nat) {
    Installed(b) && cx.code == b.code && m.pc == x && m.callStack != []
  }

  function Meaning(b: Build, fuel: nat, e: Expr, m: Machine): Option<(Hvalue, Entities)>
    requires m.callStack != []
  {
    EvalExpr(b.World(), fuel, e, m.Frame().entity, m.Frame().locals, m.entities)
  }

  function MeaningArgs(b: Build, fuel: nat, args: seq<Expr>, m: Machine): Option<(seq<Hvalue>, Entities)>
    requires m.callStack != []
  {
    EvalArgs(b.World(), fuel, args, m.Frame().entity, m.Frame().locals, m.entities)
  }

  function MeaningBody(b: Build, fuel: nat, body: seq<Stmt>, m: Machine): Option<(Hvalue, Entities)>
    requires m.callStack != []
  {
    EvalBody(b.World(), fuel, body, m.Frame().entity, m.Frame().locals, m.entities)
  }

  /** At the Ret of a body: its value on the stack, only the locals of its own frame changed. */
  ghost predicate Returning(m: Machine, end: Machine, v: Hvalue, es: Entities) {
    && m.callStack != [] && |end.callStack| == |m.callStack|
    && end == m.(pc := end.pc, opStack := m.opStack + [v], entities := es, callStack := end.callStack)
    && end.callStack[..|m.callStack| - 1] == m.callStack[..|m.callStack| - 1]
    && end.Frame().returnAddress == m.Frame().returnAddress
  }

  lemma ComputeRuns(m: Machine, op: BinOp, mid: nat, y: nat, l: byte, r: byte, z: byte, es: Entities, es': Entities)
    requires Operate(AsCompiled, op, l, r) == Some(z)
    ensures Compute(OpOf(op), Evaluated(Evaluated(m, mid, [Hu8(l)], es), y, [Hu8(r)], es'))
         == Next(Evaluated(m, y, [Hu8(z)], es'))
  {
    hide Arithmetic;
    var m2 := Evaluated(Evaluated(m, mid, [Hu8(l)], es), y, [Hu8(r)], es');
    assert m2.opStack[..|m2.opStack| - 2] == m.opStack;
  }

  /** The code of an expression leaves its value on the stack and its effect on the entities. */
  lemma {:induction false} ExprRuns(b: Build, cx: Running, fuel: nat, e: Expr, x: nat, y: nat, m: Machine) returns (n: nat)
    requires Fits(b, cx, m, x) && ReadyExpr(b, e, b.ScopeFor(m.Frame().locals), x, y) && Meaning(b, fuel, e, m).Some?
    ensures Exec(cx, m, n) == Some(Evaluated(m, y, [Meaning(b, fuel, e, m).value.0], Meaning(b, fuel, e, m).value.1))
    decreases fuel, e
  {
    hide Placed, Perform, Step, Installed;
    var scope := b.ScopeFor(m.Frame().locals);
    match e
    case Value(v) =>
      PlacedOne(b, cx, x, y, Plain(Push(v)), m);
      assert Step(cx, m) == Next(Evaluated(m, y, [v], m.entities)) by { PushRuns(cx, v, m.(pc := y)); }
      ExecOne(cx, m, 0, Evaluated(m, y, [v], m.entities));
      return 1;
    case Variable(id) =>
      PlacedOne(b, cx, x, y, Plain(LoadOp(Refer(id, scope))), m);
      LoadRuns(cx, id, scope, m.(pc := y));
      ExecOne(cx, m, 0, Evaluated(m, y, [Meaning(b, fuel, e, m).value.0], m.entities));
      return 1;
    case Operator(l, op, r) =>
      var left, right := GenExpr(ReferExpr(l, scope), b.naming), GenExpr(ReferExpr(r, scope), b.naming);
      var operate := PlacedSplit(b, x, y, left + right, [Plain(OpOf(op))]);
      var mid := PlacedSplit(b, x, operate, left, right);
      var n1 := ExprRuns(b, cx, fuel, l, x, mid, m);
      var m1 := Exec(cx, m, n1).value;
      var n2 := ExprRuns(b, cx, fuel, r, mid, operate, m1);
      var m2 := Exec(cx, m1, n2).value;
      ExecJoin(cx, m, n1, n2);
      PlacedOne(b, cx, operate, y, Plain(OpOf(op)), m2);
      var (lv, es1) := Meaning(b, fuel, l, m).value;
      var (rv, es2) := Meaning(b, fuel, r, m1).value;
      var v := Meaning(b, fuel, e, m).value.0;
      ComputeRuns(m, op, mid, y, lv.n, rv.n, v.n, es1, es2);
      OperatorPerforms(cx, op, m2.(pc := y));
      ExecOne(cx, m, n1 + n2, Evaluated(m, y, [v], es2));
      return n1 + n2 + 1;
    case FunctionCall(_, _, _) =>
      n := FunctionCallRuns(b, cx, fuel, e, x, y, m);
  }

  lemma PushRuns(cx: Running, v: Hvalue, m: Machine)
    ensures Perform(cx, Push(v), m) == Next(Evaluated(m, m.pc, [v], m.entities))
  {
  }

  lemma OperatorPerforms(cx: Running, op: BinOp, m: Machine)
    ensures Perform(cx, OpOf(op), m) == Compute(OpOf(op), m)
  {
  }

  lemma {:induction false} ArgsRun(b: Build, cx: Running, fuel: nat, args: seq<Expr>, x: nat, y: nat, m: Machine) returns (n: nat)
    requires Fits(b, cx, m, x) && ReadyArgs(b, args, b.ScopeFor(m.Frame().locals), x, y) && MeaningArgs(b, fuel, args, m).Some?
    ensures Exec(cx, m, n) == Some(Evaluated(m, y, MeaningArgs(b, fuel, args, m).value.0, MeaningArgs(b, fuel, args, m).value.1))
    decreases fuel, args
  {
    hide Perform, Step, Installed;
    var scope := b.ScopeFor(m.Frame().locals);
    if args == [] {
      SweepNone(b, x, y);
      assert m.opStack + [] == m.opStack;
      return 0;
    }
    hide Placed;
    var first, later := GenExpr(ReferExpr(args[0], scope), b.naming), GenArgs(ReferArgs(args[1..], scope), b.naming);
    assert ReferArgs(args, scope)[1..] == ReferArgs(args[1..], scope);
    var mid := PlacedSplit(b, x, y, first, later);
    var n1 := ExprRuns(b, cx, fuel, args[0], x, mid, m);
    var m1 := Exec(cx, m, n1).value;
    var n2 := ArgsRun(b, cx, fuel, args[1..], mid, y, m1);
    ExecJoin(cx, m, n1, n2);
    Assoc(m.opStack, [Meaning(b, fuel, args[0], m).value.0], MeaningArgs(b, fuel, args[1..], m1).value.0);
    return n1 + n2;
  }

  lemma {:induction false} FunctionCallRuns(b: Build, cx: Running, fuel: nat, e: Expr, x: nat, y: nat, m: Machine) returns (n: nat)
    requires e.FunctionCall?
    requires Fits(b, cx, m, x) && ReadyExpr(b, e, b.ScopeFor(m.Frame().locals), x, y) && Meaning(b, fuel, e, m).Some?
    ensures Exec(cx, m, n) == Some(Evaluated(m, y, [Meaning(b, fuel, e, m).value.0], Meaning(b, fuel, e, m).value.1))
    decreases fuel, e, 0
  {
    hide Placed, Perform, Step, CallFunction, EvalBody;
    var scope, id := b.ScopeFor(m.Frame().locals), Refer(e.receiver, b.ScopeFor(m.Frame().locals));
    var (values, es) := MeaningArgs(b, fuel, e.args, m).value;
    var i := Find(b.functions, e.func).value;
    var args, item := GenArgs(ReferArgs(e.args, scope), b.naming), CallTo(b.naming.entity, i, |values|);
    var receiver := Lookup(e.receiver.sym, m.Frame().entity, m.Frame().locals, es).value;
    var call := PlacedSplit(b, x, y, args + [Plain(LoadOp(id))], [item]);
    var load := PlacedSplit(b, x, call, args, [Plain(LoadOp(id))]);
    var n1 := ArgsRun(b, cx, fuel, e.args, x, load, m);
    var m1 := Evaluated(m, load, values, es);
    PlacedOne(b, cx, load, call, Plain(LoadOp(id)), m1);
    LoadRuns(cx, e.receiver, scope, m1.(pc := call));
    var m2 := m1.(pc := call).Pushed(receiver);
    ExecOne(cx, m, n1, m2);
    PlacedOne(b, cx, call, y, item, m2);
    CallPerforms(cx, b.Start(i), |values|, m2.(pc := y));
    CallShape(m2.(pc := y), b.Start(i), values, m.opStack);
    var m3 := CallFunction(b.Start(i), |values|, m2.(pc := y)).m;
    ExecOne(cx, m, n1 + 1, m3);
    var n2, end, z := FunctionRuns(b, cx, fuel - 1, i, values, m.opStack, m3);
    CallReturns(cx, m2.(pc := y), b.Start(i), values, m.opStack, n2, end, z,
                Meaning(b, fuel, e, m).value.0, Meaning(b, fuel, e, m).value.1);
    ExecJoin(cx, m, n1 + 2, n2 + 1);
    return n1 + 2 + n2 + 1;
  }

  lemma CallPerforms(cx: Running, address: u64, argc: byte, m: Machine)
    ensures Perform(cx, Call(address, argc), m) == CallFunction(address, argc, m)
  {
  }

  function FunctionMeaning(b: Build, fuel: nat, i: nat, values: seq<Hvalue>, cur: nat, es: Entities): Option<(Hvalue, Entities)>
    requires i < |b.functions| && |values| == |b.functions[i].params|
  {
    EvalBody(b.World(), fuel, b.functions[i].body, cur, Bind(b.functions[i].params, values, map[]), es)
  }

  lemma FunctionParts(b: Build, i: nat) returns (mid: nat, limit: nat)
    requires Installed(b) && i < |b.functions|
    ensures (b.naming.entity, i) in b.absolute && Placed(b, b.Start(i), mid, GenParams(b.functions[i].params))
    ensures ReadyBody(b, b.functions[i].body, b.scope.(locals := Members(b.functions[i].params)), mid, limit)
  {
    assert ReadyFunction(b, i);
    hide Placed, Installed, GenParams, GenBody, WellScoped, CompilesBody, ReferBody;
    var f, scope := b.functions[i], b.scope.(locals := Members(b.functions[i].params));
    var body := GenBody(ReferBody(f.body, scope), b.naming);
    limit :| Placed(b, b.Start(i), limit, GenParams(f.params) + body);
    mid := PlacedSplit(b, b.Start(i), limit, GenParams(f.params), body);
  }

  /** Function i, from its start on a new frame to its Ret. */
  lemma {:induction false} FunctionRuns(b: Build, cx: Running, fuel: nat, i: nat, values: seq<Hvalue>, rest: seq<Hvalue>, m: Machine)
    returns (n: nat, end: Machine, z: nat)
    requires Installed(b) && cx.code == b.code && i < |b.functions| && (b.naming.entity, i) in b.absolute
    requires |values| == |b.functions[i].params| && NoPromises(values)
    requires m.callStack != [] && m.Frame().locals == map[]
    requires m.pc == b.Start(i) && m.opStack == rest + Reversed(values)
    requires FunctionMeaning(b, fuel, i, values, m.Frame().entity, m.entities).Some?
    ensures Exec(cx, m, n) == Some(end) && end.callStack != [] && Step(cx, end) == ReturnFrom(end.(pc := z))
    ensures var (v, es) := FunctionMeaning(b, fuel, i, values, m.Frame().entity, m.entities).value;
            Returning(m.(opStack := rest), end, v, es)
    decreases fuel
  {
    hide Placed, Step, Installed, Meaning, ReadyBody;
    var f := b.functions[i];
    var mid, limit := FunctionParts(b, i);
    ParamsRun(b, cx, f.params, values, rest, b.Start(i), mid, m);
    var m' := AfterParams(m, mid, rest, Bind(f.params, values, map[]));
    BindKeys(f.params, values, map[]);
    assert m'.Frame().locals.Keys == Members(f.params);
    n, end, z := BodyRuns(b, cx, fuel, f.body, mid, limit, m');
    ExecJoin(cx, m, |f.params|, n);
    n := |f.params| + n;
  }

  /** Its Ret goes back behind the call. */
  lemma CallReturns(cx: Running, m: Machine, start: nat, values: seq<Hvalue>, rest: seq<Hvalue>,
                    n: nat, end: Machine, z: nat, v: Hvalue, es: Entities)
    requires m.opStack != [] && m.opStack == rest + values + [m.Top()] && m.Top().Address? && |values| < 256
    requires CallFunction(start, |values|, m).Next?
    requires Exec(cx, CallFunction(start, |values|, m).m, n) == Some(end)
    requires end.callStack != [] && Step(cx, end) == ReturnFrom(end.(pc := z))
    requires Returning(CallFunction(start, |values|, m).m.(opStack := rest), end, v, es)
    ensures Exec(cx, CallFunction(start, |values|, m).m, n + 1) == Some(Evaluated(m.(opStack := rest), m.pc, [v], es))
  {
    hide Step, CallFunction;
    CallShape(m, start, values, rest);
    assert end.callStack[..|end.callStack| - 1] == m.callStack;
    ExecOne(cx, CallFunction(start, |values|, m).m, n, Evaluated(m.(opStack := rest), m.pc, [v], es));
  }

  lemma CallShape(m: Machine, start: nat, values: seq<Hvalue>, rest: seq<Hvalue>)
    requires m.opStack != [] && m.opStack == rest + values + [m.Top()] && m.Top().Address? && |values| < 256
    ensures CallFunction(start, |values|, m) ==
            Next(m.(pc := start, opStack := rest + Reversed(values),
                    callStack := m.callStack + [Frame.Frame(m.Top().address.entity, map[], Some(m.pc))]))
  {
    var popped := m.Popped(1);
    assert popped.opStack == rest + values;
    assert popped.Popped(|values|).opStack == rest;
    assert popped.opStack[|popped.opStack| - |values|..] == values;
  }

  lemma {:induction false} BindKeys(params: seq<Text>, values: seq<Hvalue>, locals: Locals)
    requires |params| == |values|
    ensures Bind(params, values, locals).Keys == locals.Keys + Members(params)
  {
    if params != [] {
      BindKeys(params[1..], values[1..], locals[params[0] := values[0]]);
      assert Members(params) == {params[0]} + Members(params[1..]) by {
        assert params == [params[0]] + params[1..];
      }
    }
  }

  ghost predicate ReadyStmt(b: Build, s: Stmt, scope: Scope, x: nat, y: nat) {
    && Parsed(s.expr) && (s.Definition? ==> s.id.sym in scope.locals || !Mentions(s.expr, s.id.sym))
    && (s.Assignment? ==> s.id.target == Undecided)
    && CompilesStmt(ReferStmt(s, scope), b.naming)
    && Placed(b, x, y, GenStmt(ReferStmt(s, scope), b.naming))
  }

  /** The expression of a statement, up to the instruction that uses its value. */
  lemma {:induction false} StmtExprRuns(b: Build, cx: Running, fuel: nat, s: Stmt, x: nat, y: nat, m: Machine)
    returns (n: nat, store: nat, op: Op)
    requires Fits(b, cx, m, x) && ReadyStmt(b, s, b.ScopeFor(m.Frame().locals), x, y)
    requires Meaning(b, fuel, s.expr, m).Some?
    ensures var (v, es) := Meaning(b, fuel, s.expr, m).value;
            && CompilesStmt(ReferStmt(s, b.ScopeFor(m.Frame().locals)), b.naming)
            && op == LastOp(ReferStmt(s, b.ScopeFor(m.Frame().locals)))
            && Exec(cx, m, n) == Some(Evaluated(m, store, [v], es))
            && Step(cx, Evaluated(m, store, [v], es)) == Perform(cx, op, Evaluated(m, y, [v], es))
    decreases fuel, s
  {
    hide Placed, Perform, Step, Installed;
    Smaller(s);
    var scope := b.ScopeFor(m.Frame().locals);
    var r := ReferStmt(s, scope);
    op := LastOp(r);
    store := PlacedSplit(b, x, y, GenExpr(r.expr, b.naming), [Plain(op)]);
    if s.Definition? {
      if s.id.sym in scope.locals {
        assert scope.locals + {s.id.sym} == scope.locals;
      } else {
        ReferUnmentioned(s.expr, scope, s.id.sym);
      }
    }
    assert r.expr == ReferExpr(s.expr, scope);
    n := ExprRuns(b, cx, fuel, s.expr, x, store, m);
    PlacedOne(b, cx, store, y, Plain(op), Evaluated(m, store, [Meaning(b, fuel, s.expr, m).value.0], Meaning(b, fuel, s.expr, m).value.1));
  }

  /** The instruction that stores the value does to the machine what the statement means. */
  lemma StoreRuns(cx: Running, b: Build, s: Stmt, v: Hvalue, m: Machine, y: nat, es: Entities) returns (m': Machine)
    requires m.callStack != [] && (s.Definition? || (s.Assignment? && s.id.target == Undecided))
    requires CompilesStmt(ReferStmt(s, b.ScopeFor(m.Frame().locals)), b.naming)
    requires AfterStore(s, v, m.Frame().entity, m.Frame().locals, es).Some?
    ensures var scope := b.ScopeFor(m.Frame().locals);
            var (locals, es') := AfterStore(s, v, m.Frame().entity, m.Frame().locals, es).value;
            && Perform(cx, LastOp(ReferStmt(s, scope)), Evaluated(m, y, [v], es)) == Next(m')
            && m' == AfterParams(m, y, m.opStack, locals).(entities := es')
            && b.ScopeFor(locals) == ScopeAfter(s, scope).(locals := locals.Keys)
            && locals.Keys == ScopeAfter(s, scope).locals
  {
    var scope := b.ScopeFor(m.Frame().locals);
    var (locals, es') := AfterStore(s, v, m.Frame().entity, m.Frame().locals, es).value;
    m' := AfterParams(m, y, m.opStack, locals).(entities := es');
    var before := m.(pc := y, entities := es);
    assert Evaluated(m, y, [v], es) == before.Pushed(v);
    StorePerforms(cx, ReferStmt(s, scope).id, v, before);
    assert m.callStack == m.callStack[..|m.callStack| - 1] + [m.Frame()];
  }

  /** The code of a body runs to its return. */
  lemma {:induction false} BodyRuns(b: Build, cx: Running, fuel: nat, body: seq<Stmt>, x: nat, y: nat, m: Machine)
    returns (n: nat, end: Machine, z: nat)
    requires Fits(b, cx, m, x) && ReadyBody(b, body, b.ScopeFor(m.Frame().locals), x, y) && MeaningBody(b, fuel, body, m).Some?
    ensures Exec(cx, m, n) == Some(end) && end.callStack != [] && Step(cx, end) == ReturnFrom(end.(pc := z))
    ensures Returning(m, end, MeaningBody(b, fuel, body, m).value.0, MeaningBody(b, fuel, body, m).value.1)
    decreases fuel, body
  {
    hide Placed, Perform, Step, Installed, AfterStore;
    var scope, s := b.ScopeFor(m.Frame().locals), body[0];
    var next := FirstStmt(b, body, scope, x, y);
    var n1, store, op := StmtExprRuns(b, cx, fuel, s, x, next, m);
    var (v, es) := Meaning(b, fuel, s.expr, m).value;
    if s.Return? {
      ReturnPerforms(cx, Evaluated(m, next, [v], es));
      return n1, Evaluated(m, store, [v], es), next;
    }
    var m2 := StoreRuns(cx, b, s, v, m, next, es);
    ExecOne(cx, m, n1, m2);
    var n2;
    n2, end, z := BodyRuns(b, cx, fuel, body[1..], next, y, m2);
    ExecJoin(cx, m, n1 + 1, n2);
    n := n1 + 1 + n2;
  }

  /** The code of definitions and assignments at the start of a body leads to the code of the rest. */
  lemma {:induction false} PrefixRuns(b: Build, cx: Running, fuel: nat, begin: seq<Stmt>, rest: seq<Stmt>, x: nat, y: nat, m: Machine)
    returns (n: nat, mid: nat)
    requires Fits(b, cx, m, x) && ReadyBody(b, begin + rest, b.ScopeFor(m.Frame().locals), x, y)
    requires EvalPrefix(b.World(), fuel, begin, m.Frame().entity, m.Frame().locals, m.entities).Some?
    ensures var (locals, es) := EvalPrefix(b.World(), fuel, begin, m.Frame().entity, m.Frame().locals, m.entities).value;
            && Exec(cx, m, n) == Some(AfterParams(m, mid, m.opStack, locals).(entities := es))
            && ReadyBody(b, rest, b.ScopeFor(locals), mid, y)
    decreases begin
  {
    hide Placed, Perform, Step, Installed, AfterStore;
    if begin == [] {
      assert begin + rest == rest && m.callStack == m.callStack[..|m.callStack| - 1] + [m.Frame()];
      return 0, x;
    }
    assert (begin + rest)[0] == begin[0] && (begin + rest)[1..] == begin[1..] + rest;
    var s := begin[0];
    var next := FirstStmt(b, begin + rest, b.ScopeFor(m.Frame().locals), x, y);
    var n1, store, op := StmtExprRuns(b, cx, fuel, s, x, next, m);
    var (v, es) := Meaning(b, fuel, s.expr, m).value;
    var m2 := StoreRuns(cx, b, s, v, m, next, es);
    ExecOne(cx, m, n1, m2);
    var n2;
    n2, mid := PrefixRuns(b, cx, fuel, begin[1..], rest, next, y, m2);
    ExecJoin(cx, m, n1 + 1, n2);
    n := n1 + 1 + n2;
  }

  lemma FirstStmt(b: Build, body: seq<Stmt>, scope: Scope, x: nat, y: nat) returns (mid: nat)
    requires body != [] && ReadyBody(b, body, scope, x, y)
    ensures ReadyStmt(b, body[0], scope, x, mid)
    ensures !body[0].Return? ==> ReadyBody(b, body[1..], ScopeAfter(body[0], scope), mid, y)
  {
    hide Placed;
    var r, rest := ReferStmt(body[0], scope), ReferBody(body[1..], ScopeAfter(body[0], scope));
    assert ReferBody(body, scope)[0] == r && ReferBody(body, scope)[1..] == rest;
    mid := PlacedSplit(b, x, y, GenStmt(r, b.naming), GenBody(rest, b.naming));
  }

  lemma ReturnPerforms(cx: Running, m: Machine)
    ensures Perform(cx, Ret, m) == ReturnFrom(m)
  {
  }

  /** What storing the value on top of the stack does. */
  lemma StorePerforms(cx: Running, id: Identifier, v: Hvalue, m: Machine)
    requires id.target == LocalVar || id.target == EntityVar
    requires m.callStack != []
    ensures id.target == LocalVar && !v.Promise? ==> Perform(cx, StoreOp(id), m.Pushed(v)) == Next(m.Stored(id.sym, v))
    ensures id.target == EntityVar && m.Frame().entity in m.entities ==>
              Perform(cx, StoreOp(id), m.Pushed(v)) == Next(m.(entities := SetData(m.entities, m.Frame().entity, id.sym, v)))
  {
    assert m.Pushed(v).Popped(1) == m;
  }
}
