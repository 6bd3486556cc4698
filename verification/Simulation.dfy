/** Running compiled functions gives what their source means. */
module Simulation {
  import opened Bytes
  import opened Opcodes
  import opened Syntax
  import opened Codegen
  import opened Generator
  import opened Vats
  import opened Semantics

  // ---- Instructions lying one after another ----

  /** From x up to y the code reads as these instructions. */
  ghost predicate Lies(code: seq<byte>, x: nat, y: nat, ops: seq<Op>) {
    Sweep(x, y, code) == Some((y, ops))
  }

  lemma {:induction false} LiesSplit(code: seq<byte>, x: nat, y: nat, a: seq<Op>, b: seq<Op>) returns (mid: nat)
    requires Lies(code, x, y, a + b)
    ensures x <= mid <= y && Lies(code, x, mid, a) && Lies(code, mid, y, b)
    decreases |a|
  {
    if a == [] {
      assert a + b == b;
      SweepEnds(code, x, y);
      return x;
    }
    var (next, op) := Decode(x, code).value;
    assert (a + b)[1..] == a[1..] + b;
    assert [op] + Sweep(next, y, code).value.1 == a + b;
    assert Sweep(next, y, code).value.1 == (a + b)[1..];
    mid := LiesSplit(code, next, y, a[1..], b);
    assert [op] + a[1..] == a;
  }

  lemma {:induction false} SweepEnds(code: seq<byte>, x: nat, y: nat)
    requires Sweep(x, y, code).Some?
    ensures x <= Sweep(x, y, code).value.0
    decreases y - x
  {
    if x < y {
      SweepEnds(code, Decode(x, code).value.0, y);
    }
  }

  lemma SweepEmpty(code: seq<byte>, x: nat, y: nat)
    requires Sweep(x, y, code).Some?
    ensures Sweep(x, y, code).value.1 == [] <==> x >= y
  {
  }

  lemma LiesOne(cx: Running, x: nat, y: nat, op: Op, m: Machine)
    requires Lies(cx.code, x, y, [op]) && m.pc == x
    ensures Step(cx, m) == Perform(cx, op, m.(pc := y))
  {
    hide Perform, Decode;
    var (next, first) := Decode(x, cx.code).value;
    var rest := Sweep(next, y, cx.code).value.1;
    assert ([first] + rest)[0] == first && |rest| == 0;
    SweepEmpty(cx.code, next, y);
  }

  // ---- What has been compiled and linked ----

  // One entity definition: its functions as written, what their names refer to, and the code they became part of.
  datatype Build = Build(code: seq<byte>, functions: seq<Function>, scope: Scope, naming: Naming, absolute: Addresses)
  {
    function World(): World {
      Semantics.World.World(AsCompiled, functions)
    }

    function ScopeFor(locals: Locals): Scope {
      scope.(locals := locals.Keys)
    }

    function Start(i: nat): nat
      requires (naming.entity, i) in absolute
    {
      absolute[(naming.entity, i)]
    }
  }

  ghost predicate Placed(b: Build, x: nat, y: nat, items: seq<Item>) {
    EncodableItems(items) && Addressed(items, b.absolute) && Lies(b.code, x, y, LinkedOps(items, b.absolute))
  }

  /** As the parser leaves identifiers. */
  predicate Parsed(e: Expr) {
    match e
    case Value(_) => true
    case Variable(id) => id.target == Undecided
    case Operator(l, _, r) => Parsed(l) && Parsed(r)
    case FunctionCall(id, _, args) => id.target == Undecided && forall i :: 0 <= i < |args| ==> Parsed(args[i])
    case Send(id, _, args) => id.target == Undecided && forall i :: 0 <= i < |args| ==> Parsed(args[i])
  }

  predicate Mentions(e: Expr, sym: Text) {
    match e
    case Value(_) => false
    case Variable(id) => id.sym == sym
    case Operator(l, _, r) => Mentions(l, sym) || Mentions(r, sym)
    case FunctionCall(id, _, args) => id.sym == sym || exists i :: 0 <= i < |args| && Mentions(args[i], sym)
    case Send(id, _, args) => id.sym == sym || exists i :: 0 <= i < |args| && Mentions(args[i], sym)
  }

  /** No initialiser mentions the new variable it initialises. */
  predicate WellScoped(body: seq<Stmt>, locals: set<Text>) {
    body == [] ||
    (Parsed(body[0].expr)
     && (match body[0]
         case Definition(id, e) => (id.sym in locals || !Mentions(e, id.sym)) && WellScoped(body[1..], locals + {id.sym})
         case Assignment(id, _) => id.target == Undecided && WellScoped(body[1..], locals)
         case Wait(_) => WellScoped(body[1..], locals)
         case Return(_) => true))
  }

  ghost predicate ReadyExpr(b: Build, e: Expr, scope: Scope, x: nat, y: nat) {
    && Parsed(e) && CompilesExpr(ReferExpr(e, scope), b.naming)
    && Placed(b, x, y, GenExpr(ReferExpr(e, scope), b.naming))
  }

  ghost predicate ReadyArgs(b: Build, args: seq<Expr>, scope: Scope, x: nat, y: nat) {
    && (forall i :: 0 <= i < |args| ==> Parsed(args[i])) && CompilesArgs(ReferArgs(args, scope), b.naming)
    && Placed(b, x, y, GenArgs(ReferArgs(args, scope), b.naming))
  }

  ghost predicate ReadyBody(b: Build, body: seq<Stmt>, scope: Scope, x: nat, y: nat) {
    && WellScoped(body, scope.locals) && CompilesBody(ReferBody(body, scope), b.naming)
    && Placed(b, x, y, GenBody(ReferBody(body, scope), b.naming))
  }

  ghost predicate ReadyFunction(b: Build, i: nat)
    requires i < |b.functions|
  {
    var f, scope := b.functions[i], b.scope.(locals := Members(b.functions[i].params));
    && (b.naming.entity, i) in b.absolute
    && WellScoped(f.body, Members(f.params)) && CompilesBody(ReferBody(f.body, scope), b.naming)
    && exists end: nat :: Placed(b, b.Start(i), end, GenParams(f.params) + GenBody(ReferBody(f.body, scope), b.naming))
  }

  ghost predicate Installed(b: Build) {
    forall i :: 0 <= i < |b.functions| ==>
      ReadyFunction(b, i) && b.functions[i].name in b.naming.nums && b.naming.nums[b.functions[i].name] == i
  }

  lemma PlacedSplit(b: Build, x: nat, y: nat, first: seq<Item>, second: seq<Item>) returns (mid: nat)
    requires EncodableItems(first) && EncodableItems(second) && Placed(b, x, y, first + second)
    ensures Placed(b, x, mid, first) && Placed(b, mid, y, second)
  {
    LinkedConcat(first, second, b.absolute);
    mid := LiesSplit(b.code, x, y, LinkedOps(first, b.absolute), LinkedOps(second, b.absolute));
  }

  lemma PlacedOne(b: Build, cx: Running, x: nat, y: nat, item: Item, m: Machine)
    requires cx.code == b.code && Placed(b, x, y, [item]) && m.pc == x
    ensures Addressed([item], b.absolute) && Step(cx, m) == Perform(cx, LinkedOp(item, b.absolute), m.(pc := y))
  {
    hide Perform, Lies, Step;
    assert LinkedOps([item], b.absolute) == [LinkedOp(item, b.absolute)];
    LiesOne(cx, x, y, LinkedOp(item, b.absolute), m);
  }

  // ---- Names ----

  /** Bringing a name into scope changes nothing for an expression that does not mention it. */
  lemma {:induction false} ReferUnmentioned(e: Expr, scope: Scope, sym: Text)
    requires !Mentions(e, sym)
    ensures ReferExpr(e, scope.(locals := scope.locals + {sym})) == ReferExpr(e, scope)
    decreases e
  {
    match e
    case Value(_) =>
    case Variable(_) =>
    case Operator(l, _, r) =>
      ReferUnmentioned(l, scope, sym);
      ReferUnmentioned(r, scope, sym);
    case FunctionCall(_, _, args) =>
      ReferArgsUnmentioned(args, scope, sym);
    case Send(_, _, args) =>
      ReferArgsUnmentioned(args, scope, sym);
  }

  lemma {:induction false} ReferArgsUnmentioned(args: seq<Expr>, scope: Scope, sym: Text)
    requires forall i :: 0 <= i < |args| ==> !Mentions(args[i], sym)
    ensures ReferArgs(args, scope.(locals := scope.locals + {sym})) == ReferArgs(args, scope)
    decreases args
  {
    if args != [] {
      ReferUnmentioned(args[0], scope, sym);
      ReferArgsUnmentioned(args[1..], scope, sym);
    }
  }

  /** The instruction chosen for a variable loads what its lookup means. */
  lemma LoadRuns(cx: Running, id: Identifier, scope: Scope, m: Machine)
    requires id.target == Undecided && m.callStack != [] && scope.locals == m.Frame().locals.Keys
    requires Lookup(id.sym, m.Frame().entity, m.Frame().locals, m.entities).Some?
    ensures Perform(cx, LoadOp(Refer(id, scope)), m)
         == Next(m.Pushed(Lookup(id.sym, m.Frame().entity, m.Frame().locals, m.entities).value))
  {
  }
}
