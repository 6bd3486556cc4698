/** What the modelled language means: evaluation of the syntax trees, without any code. */
module Semantics {
  import opened Bytes
  import opened Opcodes
  import opened Syntax
  import opened Vats

  // Natural is what an operator means to its reader. The compiled code pushes the left operand
  // first, so the machine pops the right one first and computes right operator left.
  datatype Order = Natural | AsCompiled

  datatype World = World(order: Order, functions: seq<Function>)

  function Operate(order: Order, op: BinOp, left: byte, right: byte): Option<byte> {
    if order == Natural then Arithmetic(OpOf(op), left, right) else Arithmetic(OpOf(op), right, left)
  }

  /** What the operators mean to their reader, in plain arithmetic: a result that is no u8 is none. */
  lemma NaturalOperators(l: byte, r: byte)
    ensures Operate(Natural, PlusOp, l, r) == if l as int + r as int < 256 then Some(l + r) else None
    ensures Operate(Natural, MinusOp, l, r) == if l >= r then Some(l - r) else None
    ensures Operate(Natural, TimesOp, l, r) == if (l as int) * (r as int) < 256 then Some(l * r) else None
    ensures r == 0 ==> Operate(Natural, DivideOp, l, r) == None
    ensures r > 0 ==> forall q: byte :: Operate(Natural, DivideOp, l, r) == Some(q) <==> q * r <= l < (q + 1) * r
    ensures r > 0 ==> Operate(Natural, DivideOp, l, r).Some?
  {
    Sums(l, r);
    Products(l, r);
    hide Operate;
    if r > 0 {
      forall q: byte
        ensures Operate(Natural, DivideOp, l, r) == Some(q) <==> q * r <= l < (q + 1) * r
      {
        Quotient(l, r, q);
      }
      Quotient(l, r, 0);
    }
  }

  lemma Sums(l: byte, r: byte)
    ensures Operate(Natural, PlusOp, l, r) == if l as int + r as int < 256 then Some(l + r) else None
    ensures Operate(Natural, MinusOp, l, r) == if l >= r then Some(l - r) else None
    ensures r == 0 ==> Operate(Natural, DivideOp, l, r) == None
  {
  }

  lemma Products(l: byte, r: byte)
    ensures Operate(Natural, TimesOp, l, r) == if (l as int) * (r as int) < 256 then Some(l * r) else None
  {
    var x, y := l as int, r as int;
    assert x * y >= 0;
    assert Operate(Natural, TimesOp, l, r) == Checked(x * y);
  }

  lemma Quotient(l: byte, r: byte, q: byte)
    requires r > 0
    ensures Operate(Natural, DivideOp, l, r).Some?
    ensures Operate(Natural, DivideOp, l, r) == Some(q) <==> q * r <= l < (q + 1) * r
  {
    var x, y, z := l as int, r as int, q as int;
    var d := x / y;
    assert d * y <= x < (d + 1) * y;
    assert d <= x by {
      assert y >= 1 && d >= 0;
      NotLess(d, y);
    }
    assert Operate(Natural, DivideOp, l, r) == Some(d);
    Between(x, y, d, z);
  }

  lemma NotLess(d: int, y: int)
    requires d >= 0 && y >= 1
    ensures d <= d * y
  {
  }

  lemma Between(x: int, y: int, d: int, z: int)
    requires y > 0 && d * y <= x < (d + 1) * y
    ensures z == d <==> z * y <= x < (z + 1) * y
  {
    if z < d {
      assert (z + 1) * y <= d * y;
    } else if d < z {
      assert (d + 1) * y <= z * y;
    }
  }

  /** What the machine does with the two numbers on top: the one pushed last is the left operand. */
  lemma MachineOperators(cx: Running, m: Machine, rest: seq<Hvalue>, below: byte, top: byte)
    requires m.opStack == rest + [Hu8(below), Hu8(top)]
    ensures Perform(cx, Add, m) == Leaves(m, rest, Operate(Natural, PlusOp, top, below))
    ensures Perform(cx, Sub, m) == Leaves(m, rest, Operate(Natural, MinusOp, top, below))
    ensures Perform(cx, Mul, m) == Leaves(m, rest, Operate(Natural, TimesOp, top, below))
    ensures Perform(cx, Div, m) == Leaves(m, rest, Operate(Natural, DivideOp, top, below))
  {
    hide Arithmetic;
    assert m.opStack[..|m.opStack| - 2] == rest;
    assert m.opStack[|m.opStack| - 1] == Hu8(top) && m.opStack[|m.opStack| - 2] == Hu8(below);
  }

  /** On anything but two numbers it panics. */
  lemma MachineOperands(cx: Running, m: Machine, op: Op)
    requires op == Add || op == Sub || op == Mul || op == Div
    requires |m.opStack| < 2 || !m.opStack[|m.opStack| - 1].Hu8? || !m.opStack[|m.opStack| - 2].Hu8?
    ensures Perform(cx, op, m) == Panic
  {
  }

  /** The result in place of the operands, or a panic. */
  function Leaves(m: Machine, rest: seq<Hvalue>, result: Option<byte>): Outcome {
    match result
    case Some(x) => Next(m.(opStack := rest + [Hu8(x)]))
    case None => Panic
  }

  lemma DivideSmaller(small: byte, large: byte)
    requires small < large
    ensures Arithmetic(Div, small, large) == Some(0)
    ensures small > 0 ==> Arithmetic(Div, large, small) != Some(0)
    ensures small == 0 ==> Arithmetic(Div, large, small) == None
  {
    var s, l := small as int, large as int;
    assert s / l == 0;
    if s > 0 {
      assert l / s >= 1;
    }
  }

  /** The two orders agree on the commutative operators and on equal operands, and nowhere else. */
  lemma OrdersAgree(op: BinOp, left: byte, right: byte)
    ensures Operate(Natural, op, left, right) == Operate(AsCompiled, op, left, right)
            <==> op.PlusOp? || op.TimesOp? || left == right
  {
    match op
    case PlusOp =>
    case TimesOp =>
      assert (left as int) * (right as int) == (right as int) * (left as int);
    case MinusOp =>
    case DivideOp =>
      hide Arithmetic;
      if left < right {
        DivideSmaller(left, right);
      } else if right < left {
        DivideSmaller(right, left);
      }
  }

  /** A function by its name. */
  function Find(functions: seq<Function>, name: Text): (r: Option<nat>)
    ensures r.Some? ==> r.value < |functions| && functions[r.value].name == name
    ensures r.None? ==> forall i :: 0 <= i < |functions| ==> functions[i].name != name
  {
    if functions == [] then None
    else if functions[|functions| - 1].name == name then Some(|functions| - 1)
    else Find(functions[..|functions| - 1], name)
  }

  /** Local variables hide those of the entity. */
  function Lookup(sym: Text, cur: nat, locals: Locals, es: Entities): Option<Hvalue> {
    if sym in locals then Some(locals[sym])
    else if cur in es && sym in es[cur].data then Some(es[cur].data[sym])
    else None
  }

  function Bind(params: seq<Text>, values: seq<Hvalue>, locals: Locals): Locals
    requires |params| == |values|
  {
    if params == [] then locals else Bind(params[1..], values[1..], locals[params[0] := values[0]])
  }

  predicate NoPromises(values: seq<Hvalue>) {
    forall i :: 0 <= i < |values| ==> !values[i].Promise?
  }

  /** Calls go to functions of the same entity definition, acting on the data of the entity addressed.
      At most fuel calls deep. None where the program has no meaning on its own: for a message it depends
      on the rest of the network. */
  function EvalExpr(w: World, fuel: nat, e: Expr, cur: nat, locals: Locals, es: Entities): Option<(Hvalue, Entities)>
    decreases fuel, e
  {
    match e
    case Value(v) => Some((v, es))
    case Variable(id) =>
      (match Lookup(id.sym, cur, locals, es)
       case Some(v) => Some((v, es))
       case None => None)
    case Operator(l, op, r) =>
      (match EvalExpr(w, fuel, l, cur, locals, es)
       case Some((Hu8(x), es')) =>
         (match EvalExpr(w, fuel, r, cur, locals, es')
          case Some((Hu8(y), es'')) =>
            (match Operate(w.order, op, x, y)
             case Some(z) => Some((Hu8(z), es''))
             case None => None)
          case _ => None)
       case _ => None)
    case Send(_, _, _) => None
    case FunctionCall(id, f, args) =>
      match EvalArgs(w, fuel, args, cur, locals, es)
      case None => None
      case Some((values, es')) =>
        match (Lookup(id.sym, cur, locals, es'), Find(w.functions, f))
        case (Some(Address(a)), Some(i)) =>
          var callee := w.functions[i];
          if fuel == 0 || |callee.params| != |values| || |values| >= 256 || !NoPromises(values) then None
          else EvalBody(w, fuel - 1, callee.body, a.entity, Bind(callee.params, values, map[]), es')
        case _ => None
  }

  function EvalArgs(w: World, fuel: nat, args: seq<Expr>, cur: nat, locals: Locals, es: Entities): (r: Option<(seq<Hvalue>, Entities)>)
    ensures r.Some? ==> |r.value.0| == |args|
    decreases fuel, args
  {
    if args == [] then Some(([], es))
    else
      match EvalExpr(w, fuel, args[0], cur, locals, es)
      case None => None
      case Some((v, es')) =>
        match EvalArgs(w, fuel, args[1..], cur, locals, es')
        case None => None
        case Some((vs, es'')) => Some(([v] + vs, es''))
  }

  lemma Smaller(s: Stmt)
    ensures s decreases to s.expr
  {
    match s
    case Definition(_, _) =>
    case Assignment(_, _) =>
    case Return(_) =>
    case Wait(_) =>
  }

  /** A body has a meaning only if it returns. */
  function EvalBody(w: World, fuel: nat, body: seq<Stmt>, cur: nat, locals: Locals, es: Entities): Option<(Hvalue, Entities)>
    decreases fuel, body
  {
    if body == [] then None
    else
      Smaller(body[0]);
      match EvalExpr(w, fuel, body[0].expr, cur, locals, es)
      case None => None
      case Some((v, es')) =>
        if body[0].Return? then Some((v, es'))
        else if body[0].Wait? then None
        else
          match AfterStore(body[0], v, cur, locals, es')
          case None => None
          case Some((locals', es'')) => EvalBody(w, fuel, body[1..], cur, locals', es'')
  }

  /** A definition makes a local variable; an assignment changes a local variable, or else the entity's. */
  function AfterStore(s: Stmt, v: Hvalue, cur: nat, locals: Locals, es: Entities): Option<(Locals, Entities)>
    requires s.Definition? || s.Assignment?
  {
    if s.Definition? || s.id.sym in locals then
      if v.Promise? then None else Some((locals[s.id.sym := v], es))
    else if cur in es && s.id.sym in es[cur].data then Some((locals, SetData(es, cur, s.id.sym, v)))
    else None
  }

  function SetData(es: Entities, cur: nat, sym: Text, v: Hvalue): Entities
    requires cur in es
  {
    es[cur := es[cur].(data := es[cur].data[sym := v])]
  }

  /** What definitions and assignments do, one after another. */
  function EvalPrefix(w: World, fuel: nat, body: seq<Stmt>, cur: nat, locals: Locals, es: Entities): Option<(Locals, Entities)>
    decreases |body|
  {
    if body == [] then Some((locals, es))
    else if !body[0].Definition? && !body[0].Assignment? then None
    else
      match EvalExpr(w, fuel, body[0].expr, cur, locals, es)
      case None => None
      case Some((v, es')) =>
        match AfterStore(body[0], v, cur, locals, es')
        case None => None
        case Some((locals', es'')) => EvalPrefix(w, fuel, body[1..], cur, locals', es'')
  }

  /** A body means what its rest means after its beginning. */
  lemma {:induction false} PrefixMeans(w: World, fuel: nat, begin: seq<Stmt>, rest: seq<Stmt>, cur: nat, locals: Locals, es: Entities)
    requires EvalPrefix(w, fuel, begin, cur, locals, es).Some?
    ensures var (locals', es') := EvalPrefix(w, fuel, begin, cur, locals, es).value;
            EvalBody(w, fuel, begin + rest, cur, locals, es) == EvalBody(w, fuel, rest, cur, locals', es')
    decreases |begin|
  {
    if begin == [] {
      assert begin + rest == rest;
    } else {
      assert (begin + rest)[0] == begin[0] && (begin + rest)[1..] == begin[1..] + rest;
      var (v, es') := EvalExpr(w, fuel, begin[0].expr, cur, locals, es).value;
      var (locals'', es'') := AfterStore(begin[0], v, cur, locals, es').value;
      PrefixMeans(w, fuel, begin[1..], rest, cur, locals'', es'');
    }
  }

  // ---- Programs without Sub and Div ----

  predicate Commutes(e: Expr) {
    match e
    case Value(_) => true
    case Variable(_) => true
    case Operator(l, op, r) => (op.PlusOp? || op.TimesOp?) && Commutes(l) && Commutes(r)
    case FunctionCall(_, _, args) => forall i :: 0 <= i < |args| ==> Commutes(args[i])
    case Send(_, _, args) => forall i :: 0 <= i < |args| ==> Commutes(args[i])
  }

  predicate CommutesBody(body: seq<Stmt>) {
    forall i :: 0 <= i < |body| ==> Commutes(body[i].expr)
  }

  predicate CommutesAll(functions: seq<Function>) {
    forall i :: 0 <= i < |functions| ==> CommutesBody(functions[i].body)
  }

  /** For them the two orders give the same meaning. */
  lemma {:induction false} SameMeaning(functions: seq<Function>, fuel: nat, e: Expr, cur: nat, locals: Locals, es: Entities)
    requires CommutesAll(functions) && Commutes(e)
    ensures EvalExpr(World(Natural, functions), fuel, e, cur, locals, es)
         == EvalExpr(World(AsCompiled, functions), fuel, e, cur, locals, es)
    decreases fuel, e
  {
    var w := World(AsCompiled, functions);
    match e
    case Value(_) =>
    case Variable(_) =>
    case Operator(l, op, r) =>
      SameMeaning(functions, fuel, l, cur, locals, es);
      var left := EvalExpr(w, fuel, l, cur, locals, es);
      if left.Some? {
        SameMeaning(functions, fuel, r, cur, locals, left.value.1);
        var right := EvalExpr(w, fuel, r, cur, locals, left.value.1);
        if left.value.0.Hu8? && right.Some? && right.value.0.Hu8? {
          OrdersAgree(op, left.value.0.n, right.value.0.n);
        }
      }
    case FunctionCall(id, f, args) =>
      SameMeaningArgs(functions, fuel, args, cur, locals, es);
      var found := Find(functions, f);
      var values := EvalArgs(w, fuel, args, cur, locals, es);
      if fuel > 0 && found.Some? && values.Some? {
        var callee := functions[found.value];
        var target := Lookup(id.sym, cur, locals, values.value.1);
        if target.Some? && target.value.Address? && |callee.params| == |values.value.0| {
          SameMeaningBody(functions, fuel - 1, callee.body, target.value.address.entity,
                          Bind(callee.params, values.value.0, map[]), values.value.1);
        }
      }
    case Send(_, _, _) =>
  }

  lemma {:induction false} SameMeaningArgs(functions: seq<Function>, fuel: nat, args: seq<Expr>, cur: nat, locals: Locals, es: Entities)
    requires CommutesAll(functions) && forall i :: 0 <= i < |args| ==> Commutes(args[i])
    ensures EvalArgs(World(Natural, functions), fuel, args, cur, locals, es)
         == EvalArgs(World(AsCompiled, functions), fuel, args, cur, locals, es)
    decreases fuel, args
  {
    if args != [] {
      SameMeaning(functions, fuel, args[0], cur, locals, es);
      var first := EvalExpr(World(AsCompiled, functions), fuel, args[0], cur, locals, es);
      if first.Some? {
        SameMeaningArgs(functions, fuel, args[1..], cur, locals, first.value.1);
      }
    }
  }

  lemma {:induction false} SameMeaningBody(functions: seq<Function>, fuel: nat, body: seq<Stmt>, cur: nat, locals: Locals, es: Entities)
    requires CommutesAll(functions) && CommutesBody(body)
    ensures EvalBody(World(Natural, functions), fuel, body, cur, locals, es)
         == EvalBody(World(AsCompiled, functions), fuel, body, cur, locals, es)
    decreases fuel, body
  {
    if body != [] {
      Smaller(body[0]);
      SameMeaning(functions, fuel, body[0].expr, cur, locals, es);
      var first := EvalExpr(World(AsCompiled, functions), fuel, body[0].expr, cur, locals, es);
      if first.Some? && !body[0].Return? && !body[0].Wait? {
        var after := AfterStore(body[0], first.value.0, cur, locals, first.value.1);
        if after.Some? {
          SameMeaningBody(functions, fuel, body[1..], cur, after.value.0, after.value.1);
        }
      }
    }
  }
}
