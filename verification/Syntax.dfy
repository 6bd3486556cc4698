/** The syntax trees of the modelled language (src/ast.rs) and the pass that decides what
    each identifier refers to (src/codegen.rs:92-153). */
module Syntax {
  import opened Bytes
  import opened Opcodes

  datatype Target = Undecided | LocalVar | EntityVar | InocVar

  datatype Identifier = Identifier(sym: Text, target: Target)

  datatype BinOp = PlusOp | MinusOp | TimesOp | DivideOp

  datatype Expr =
    | Value(value: Hvalue)
    | Variable(id: Identifier)
    | Operator(left: Expr, op: BinOp, right: Expr)
    | FunctionCall(receiver: Identifier, func: Text, args: seq<Expr>)
    | Send(receiver: Identifier, num: u32, args: seq<Expr>)  // a message to the function of this number

  datatype Stmt =
    | Definition(id: Identifier, expr: Expr)
    | Assignment(id: Identifier, expr: Expr)
    | Return(expr: Expr)
    | Wait(expr: Expr)  // await

  datatype Function = Function(name: Text, params: seq<Text>, body: seq<Stmt>)

  // The hash map of functions, listed in the order of compare_function_names.
  datatype Entity = Entity(data: seq<Text>, inocs: seq<Text>, functions: seq<Function>)

  // "self" and "create".
  const SELF: Text := [115, 101, 108, 102]
  const CREATE: Text := [99, 114, 101, 97, 116, 101]

  // The instruction of an operator.
  function OpOf(op: BinOp): Op {
    match op
    case PlusOp => Add
    case MinusOp => Sub
    case TimesOp => Mul
    case DivideOp => Div
  }

  // ---- Identifiers ----

  datatype Scope = Scope(locals: set<Text>, entity: set<Text>, inocs: set<Text>)

  function Refer(id: Identifier, scope: Scope): Identifier {
    if id.sym in scope.locals then id.(target := LocalVar)
    else if id.sym in scope.entity then id.(target := EntityVar)
    else if id.sym in scope.inocs then id.(target := InocVar)
    else id
  }

  function ReferExpr(e: Expr, scope: Scope): Expr {
    match e
    case Value(v) => Value(v)
    case Variable(id) => Variable(Refer(id, scope))
    case Operator(l, op, r) => Operator(ReferExpr(l, scope), op, ReferExpr(r, scope))
    case FunctionCall(id, f, args) => FunctionCall(Refer(id, scope), f, ReferArgs(args, scope))
    case Send(id, f, args) => Send(Refer(id, scope), f, ReferArgs(args, scope))
  }

  function ReferArgs(args: seq<Expr>, scope: Scope): (r: seq<Expr>)
    ensures |r| == |args|
  {
    if args == [] then [] else [ReferExpr(args[0], scope)] + ReferArgs(args[1..], scope)
  }

  /** A definition brings its name into scope already for its own initialiser. */
  function ScopeAfter(s: Stmt, scope: Scope): Scope {
    if s.Definition? then scope.(locals := scope.locals + {s.id.sym}) else scope
  }

  function ReferStmt(s: Stmt, scope: Scope): Stmt {
    match s
    case Definition(id, e) => Definition(id.(target := LocalVar), ReferExpr(e, ScopeAfter(s, scope)))
    case Assignment(id, e) => Assignment(Refer(id, scope), ReferExpr(e, scope))
    case Return(e) => Return(ReferExpr(e, scope))
    case Wait(e) => Wait(ReferExpr(e, scope))
  }

  function ReferBody(body: seq<Stmt>, scope: Scope): seq<Stmt> {
    if body == [] then []
    else [ReferStmt(body[0], scope)] + ReferBody(body[1..], ScopeAfter(body[0], scope))
  }

  function ReferFunction(f: Function, scope: Scope): Function {
    f.(body := ReferBody(f.body, scope.(locals := Members(f.params))))
  }

  function Members(s: seq<Text>): set<Text> {
    set x | x in s
  }

  function EntityScope(def: Entity, inocs: set<Text>): Scope {
    Scope({}, {SELF} + Members(def.data), inocs + Members(def.inocs))
  }

  function ReferEntity(def: Entity, inocs: set<Text>): Entity {
    def.(functions := seq(|def.functions|, i requires 0 <= i < |def.functions| =>
                            ReferFunction(def.functions[i], EntityScope(def, inocs))))
  }

  /** The inoculation names of earlier entities stay in scope; everything else starts afresh. */
  function ReferModule(defs: seq<Entity>, inocs: set<Text>): (r: seq<Entity>)
    ensures |r| == |defs|
  {
    if defs == [] then []
    else [ReferEntity(defs[0], inocs)] + ReferModule(defs[1..], inocs + Members(defs[0].inocs))
  }

  class VariableFlow {
    var inocVars: set<Text>
    var entityVars: set<Text>
    var localVars: set<Text>

    function Current(): Scope
      reads this
    {
      Scope(localVars, entityVars, inocVars)
    }

    constructor ()
      ensures Current() == Scope({}, {}, {})
    {
      inocVars, entityVars, localVars := {}, {}, {};
    }

    method VisitIdentifier(symbol: Identifier) returns (symbol': Identifier)
      ensures symbol' == Refer(symbol, Current())
    {
      symbol' := symbol;
      if symbol.sym in localVars {
        symbol' := symbol'.(target := LocalVar);
      } else if symbol.sym in entityVars {
        symbol' := symbol'.(target := EntityVar);
      } else if symbol.sym in inocVars {
        symbol' := symbol'.(target := InocVar);
      }
    }

    method VisitExpr(e: Expr) returns (e': Expr)
      ensures e' == ReferExpr(e, Current())
      decreases e
    {
      match e
      case Value(v) =>
        e' := e;
      case Variable(id) =>
        var id' := VisitIdentifier(id);
        e' := Variable(id');
      case Operator(l, op, r) =>
        var l' := VisitExpr(l);
        var r' := VisitExpr(r);
        e' := Operator(l', op, r');
      case FunctionCall(id, f, args) =>
        var args' := VisitArgs(args);
        var id' := VisitIdentifier(id);
        e' := FunctionCall(id', f, args');
      case Send(id, f, args) =>
        var id' := VisitIdentifier(id);
        var args' := VisitArgs(args);
        e' := Send(id', f, args');
    }

    method VisitArgs(args: seq<Expr>) returns (args': seq<Expr>)
      ensures args' == ReferArgs(args, Current())
      decreases args
    {
      args' := [];
      for i := 0 to |args|
        invariant args' == ReferArgs(args[..i], Current())
      {
        var arg := VisitExpr(args[i]);
        ReferArgsSnoc(args[..i], args[i], Current());
        assert args[..i] + [args[i]] == args[..i + 1];
        args' := args' + [arg];
      }
      assert args[..|args|] == args;
    }

    method VisitStmt(s: Stmt) returns (s': Stmt)
      modifies this`localVars
      ensures s' == ReferStmt(s, old(Current())) && Current() == ScopeAfter(s, old(Current()))
    {
      match s
      case Definition(id, e) =>
        localVars := localVars + {id.sym};
        var e' := VisitExpr(e);
        s' := Definition(id.(target := LocalVar), e');
      case Assignment(id, e) =>
        var id' := VisitIdentifier(id);
        var e' := VisitExpr(e);
        s' := Assignment(id', e');
      case Return(e) =>
        var e' := VisitExpr(e);
        s' := Return(e');
      case Wait(e) =>
        var e' := VisitExpr(e);
        s' := Wait(e');
    }

    method VisitFunction(f: Function) returns (f': Function)
      modifies this`localVars
      ensures f' == ReferFunction(f, old(Current()))
    {
      localVars := Members(f.params);
      var body := [];
      ghost var start := Current();
      for i := 0 to |f.body|
        invariant entityVars == old(entityVars) && inocVars == old(inocVars)
        invariant ReferBody(f.body, start) == body + ReferBody(f.body[i..], Current())
      {
        ghost var scope := Current();
        var s := VisitStmt(f.body[i]);
        assert f.body[i..][1..] == f.body[i + 1..];
        Assoc(body, [s], ReferBody(f.body[i + 1..], Current()));
        body := body + [s];
      }
      f' := f.(body := body);
      assert body + [] == body;
    }

    method VisitEntityDef(def: Entity) returns (def': Entity)
      modifies this
      ensures inocVars == old(inocVars) + Members(def.inocs)
      ensures def' == ReferEntity(def, old(inocVars))
    {
      entityVars := {SELF} + Members(def.data);
      inocVars := inocVars + Members(def.inocs);
      var functions := [];
      for i := 0 to |def.functions|
        invariant entityVars == {SELF} + Members(def.data) && inocVars == old(inocVars) + Members(def.inocs)
        invariant |functions| == i
        invariant forall k :: 0 <= k < i ==>
                    functions[k] == ReferFunction(def.functions[k], EntityScope(def, old(inocVars)))
      {
        localVars := {};
        var f := VisitFunction(def.functions[i]);
        functions := functions + [f];
      }
      def' := def.(functions := functions);
      assert functions == ReferEntity(def, old(inocVars)).functions;
    }

    method VisitModule(defs: seq<Entity>) returns (defs': seq<Entity>)
      modifies this
      ensures defs' == ReferModule(defs, old(inocVars))
    {
      defs' := [];
      for i := 0 to |defs|
        invariant ReferModule(defs, old(inocVars)) == defs' + ReferModule(defs[i..], inocVars)
      {
        ghost var rest := ReferModule(defs[i + 1..], inocVars + Members(defs[i].inocs));
        assert defs[i..][1..] == defs[i + 1..];
        var def := VisitEntityDef(defs[i]);
        Assoc(defs', [def], rest);
        defs' := defs' + [def];
      }
      assert defs' + [] == defs';
    }
  }

  lemma {:induction false} ReferArgsSnoc(args: seq<Expr>, last: Expr, scope: Scope)
    ensures ReferArgs(args + [last], scope) == ReferArgs(args, scope) + [ReferExpr(last, scope)]
  {
    if args != [] {
      ReferArgsSnoc(args[1..], last, scope);
      assert (args + [last])[1..] == args[1..] + [last];
    }
  }

  // ---- The order of functions ----

  /** String order on bytes: what cmp decides for two names. */
  predicate Below(a: Text, b: Text) {
    if b == [] then false
    else if a == [] then true
    else a[0] < b[0] || (a[0] == b[0] && Below(a[1..], b[1..]))
  }

  /** k bytes in common, and then a ends first or has the smaller byte. */
  predicate Departs(a: Text, b: Text, k: nat) {
    k <= |a| && k < |b| && a[..k] == b[..k] && (k == |a| || a[k] < b[k])
  }

  /** Below is the dictionary order. */
  lemma {:induction false} BelowMeans(a: Text, b: Text)
    ensures Below(a, b) <==> exists k: nat :: Departs(a, b, k)
  {
    if b == [] {
    } else if a == [] {
      assert Departs(a, b, 0);
    } else if a[0] != b[0] {
      assert Departs(a, b, 0) <==> a[0] < b[0];
      forall k: nat
        ensures Departs(a, b, k) ==> k == 0
      {
        AtOnce(a, b, k);
      }
    } else {
      BelowMeans(a[1..], b[1..]);
      forall k: nat
        ensures Departs(a[1..], b[1..], k) <==> Departs(a, b, k + 1)
      {
        Further(a, b, k);
      }
      assert !Departs(a, b, 0);
      if exists k: nat :: Departs(a, b, k) {
        var k: nat :| Departs(a, b, k);
        assert Departs(a[1..], b[1..], k - 1);
      }
    }
  }

  lemma AtOnce(a: Text, b: Text, k: nat)
    requires a != [] && b != [] && a[0] != b[0]
    ensures Departs(a, b, k) ==> k == 0
  {
    if 0 < k <= |a| && k < |b| {
      assert a[..k][0] == a[0] && b[..k][0] == b[0];
    }
  }

  lemma Further(a: Text, b: Text, k: nat)
    requires a != [] && b != [] && a[0] == b[0]
    ensures Departs(a[1..], b[1..], k) <==> Departs(a, b, k + 1)
  {
    if k < |a| && k < |b| {
      assert a[..k + 1] == [a[0]] + a[1..][..k] && b[..k + 1] == [b[0]] + b[1..][..k];
      assert a[..k + 1][1..] == a[1..][..k] && b[..k + 1][1..] == b[1..][..k];
    }
  }

  /** compare_function_names on different names. */
  predicate Before(a: Text, b: Text) {
    if a == CREATE then b != CREATE else b != CREATE && Below(a, b)
  }

  lemma BelowTotal(a: Text, b: Text)
    ensures a == b || Below(a, b) || Below(b, a)
    ensures !Below(a, a) && !(Below(a, b) && Below(b, a))
  {
    if a != [] && b != [] && a[0] == b[0] {
      BelowTotal(a[1..], b[1..]);
      assert a == [a[0]] + a[1..] && b == [b[0]] + b[1..];
    }
    if a != [] {
      BelowTotal(a[1..], a[1..]);
    }
  }

  ghost predicate InOrder(names: seq<Text>) {
    forall i, j :: 0 <= i < j < |names| ==> Before(names[i], names[j])
  }

  /** The hash map's own order does not matter: two sorted listings of the same names are the same,
      so the passes that number functions on their own agree, with the constructor as number 0. */
  lemma {:induction false} OrderUnique(a: seq<Text>, b: seq<Text>)
    requires InOrder(a) && InOrder(b) && Members(a) == Members(b)
    ensures a == b
    ensures CREATE in a ==> a[0] == CREATE
  {
    NoMembers(a);
    NoMembers(b);
    if a != [] {
      assert a[0] in Members(b) && b[0] in Members(a);
      var i: nat :| i < |b| && b[i] == a[0];
      var j: nat :| j < |a| && a[j] == b[0];
      BelowTotal(a[0], b[0]);
      assert i == 0;
      forall x | x in Members(a[1..])
        ensures x in Members(b[1..])
      {
        NotFirst(a, x);
        SplitMember(a, x);
        SplitMember(b, x);
        assert x in Members(a);
      }
      forall x | x in Members(b[1..])
        ensures x in Members(a[1..])
      {
        NotFirst(b, x);
        SplitMember(a, x);
        SplitMember(b, x);
        assert x in Members(b);
      }
      OrderUnique(a[1..], b[1..]);
      assert a == [a[0]] + a[1..] && b == [b[0]] + b[1..];
    }
  }

  lemma NoMembers(s: seq<Text>)
    ensures Members(s) == {} <==> s == []
  {
    if s != [] {
      assert s[0] in Members(s);
    }
  }

  lemma NotFirst(s: seq<Text>, x: Text)
    requires s != [] && InOrder(s) && x in s[1..]
    ensures x != s[0]
  {
    var k: nat :| k < |s[1..]| && s[1..][k] == x;
    assert s[k + 1] == x && Before(s[0], s[k + 1]);
    BelowTotal(x, x);
  }

  lemma SplitMember(s: seq<Text>, x: Text)
    requires s != []
    ensures x in s <==> x == s[0] || x in s[1..]
  {
    assert s == [s[0]] + s[1..];
  }

  // ---- Sorting ----

  function Names(functions: seq<Function>): (names: seq<Text>)
    ensures |names| == |functions|
  {
    seq(|functions|, i requires 0 <= i < |functions| => functions[i].name)
  }

  /** Functions listed in order, so named apart. */
  ghost predicate Sorted(functions: seq<Function>) {
    InOrder(Names(functions))
  }

  lemma {:induction false} BelowTransitive(a: Text, b: Text, c: Text)
    requires Below(a, b) && Below(b, c)
    ensures Below(a, c)
  {
    if a != [] && a[0] == b[0] && b[0] == c[0] {
      BelowTransitive(a[1..], b[1..], c[1..]);
    }
  }

  lemma BeforeOrder(a: Text, b: Text, c: Text)
    ensures a != b ==> Before(a, b) || Before(b, a)
    ensures Before(a, b) ==> a != b
    ensures Before(a, b) && Before(b, c) ==> Before(a, c)
  {
    BelowTotal(a, b);
    if Below(a, b) && Below(b, c) {
      BelowTransitive(a, b, c);
    }
  }

  /** The place of one more function among sorted ones. */
  method InsertByName(sorted: seq<Function>, f: Function) returns (longer: seq<Function>)
    requires Sorted(sorted) && f.name !in Names(sorted)
    ensures Sorted(longer) && forall g :: g in longer <==> g == f || g in sorted
  {
    var k := 0;
    while k < |sorted| && Before(sorted[k].name, f.name)
      invariant k <= |sorted|
      invariant forall j :: 0 <= j < k ==> Before(sorted[j].name, f.name)
    {
      k := k + 1;
    }
    longer := sorted[..k] + [f] + sorted[k..];
    assert sorted == sorted[..k] + sorted[k..];
    forall j | k <= j < |sorted|
      ensures Before(f.name, sorted[j].name)
    {
      assert Names(sorted)[j] == sorted[j].name && Names(sorted)[k] == sorted[k].name;
      BeforeOrder(f.name, sorted[k].name, sorted[j].name);
    }
    forall i, j | 0 <= i < j < |longer|
      ensures Before(Names(longer)[i], Names(longer)[j])
    {
      assert i != k ==> longer[i] == sorted[if i < k then i else i - 1];
      assert j != k ==> longer[j] == sorted[if j < k then j else j - 1];
      assert i != k && j != k ==>
        Before(Names(sorted)[if i < k then i else i - 1], Names(sorted)[if j < k then j else j - 1]);
    }
  }

  /** iter_mut on the hash map and sort_by: in whatever order the map yields them. */
  method SortByName(functions: set<Function>) returns (sorted: seq<Function>)
    requires forall f, g :: f in functions && g in functions && f.name == g.name ==> f == g
    ensures Sorted(sorted) && forall f :: f in sorted <==> f in functions
  {
    sorted := [];
    var left := functions;
    while left != {}
      invariant left <= functions && Sorted(sorted)
      invariant forall f :: f in sorted <==> f in functions && f !in left
      decreases left
    {
      var f :| f in left;
      forall i | 0 <= i < |sorted|
        ensures Names(sorted)[i] != f.name
      {
        assert sorted[i] in sorted;
      }
      sorted := InsertByName(sorted, f);
      left := left - {f};
    }
  }

  lemma NamedApart(functions: seq<Function>, i: nat, j: nat)
    requires Sorted(functions) && i < |functions| && j < |functions|
    ensures functions[i].name == functions[j].name ==> i == j
  {
    var names := Names(functions);
    assert i < j ==> Before(names[i], names[j]);
    assert j < i ==> Before(names[j], names[i]);
    BeforeOrder(names[i], names[j], names[j]);
    BeforeOrder(names[j], names[i], names[i]);
  }

  lemma SameNames(a: seq<Function>, b: seq<Function>)
    requires forall f :: f in a ==> f in b
    ensures Members(Names(a)) <= Members(Names(b))
  {
    forall x | x in Names(a)
      ensures x in Names(b)
    {
      var i: nat :| i < |a| && Names(a)[i] == x;
      assert a[i] in b;
      var j: nat :| j < |b| && b[j] == a[i];
      assert Names(b)[j] == x;
    }
  }

  /** So every sort of the same functions lists them alike. */
  lemma SortedAlike(a: seq<Function>, b: seq<Function>)
    requires Sorted(a) && Sorted(b) && forall f :: f in a <==> f in b
    ensures a == b
  {
    SameNames(a, b);
    SameNames(b, a);
    OrderUnique(Names(a), Names(b));
    forall i | 0 <= i < |a|
      ensures a[i] == b[i]
    {
      assert a[i] in b;
      var j: nat :| j < |b| && b[j] == a[i];
      assert Names(a)[i] == Names(b)[i];
      NamedApart(b, i, j);
    }
  }

  /** What the visitors get when they sort the functions of a tree. */
  method SortFunctions(functions: seq<Function>) returns (sorted: seq<Function>)
    requires Sorted(functions)
    ensures sorted == functions
  {
    forall f, g | f in functions && g in functions && f.name == g.name
      ensures f == g
    {
      var i: nat :| i < |functions| && functions[i] == f;
      var j: nat :| j < |functions| && functions[j] == g;
      NamedApart(functions, i, j);
    }
    sorted := SortByName(set f | f in functions);
    SortedAlike(sorted, functions);
  }
}
