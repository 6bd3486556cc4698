/** The code generator's visitors (src/codegen.rs:286-510), proved against the item lists they emit. */
module Generator {
  import opened Bytes
  import opened Opcodes
  import opened Tables
  import opened Syntax
  import opened Codegen

  // ---- What each piece of syntax becomes ----

  // The entity being compiled and the numbers of the functions met so far.
  datatype Naming = Naming(entity: nat, nums: map<Text, nat>)

  /** Where the generator does not panic. */
  predicate CompilesExpr(e: Expr, n: Naming) {
    match e
    case Value(v) => EncodableValue(v)
    case Variable(_) => true
    case Operator(l, _, r) => CompilesExpr(l, n) && CompilesExpr(r, n)
    case FunctionCall(_, f, args) => f in n.nums && CompilesArgs(args, n)
    case Send(_, _, args) => CompilesArgs(args, n)
  }

  predicate CompilesArgs(args: seq<Expr>, n: Naming) {
    args == [] || (CompilesExpr(args[0], n) && CompilesArgs(args[1..], n))
  }

  function LoadOp(id: Identifier): Op {
    if id.target == LocalVar then Lload(id.sym) else Eload(id.sym)
  }

  function StoreOp(id: Identifier): Op
    requires id.target == LocalVar || id.target == EntityVar
  {
    if id.target == LocalVar then Lstore(id.sym) else Estore(id.sym)
  }

  ghost function GenExpr(e: Expr, n: Naming): (r: seq<Item>)
    requires CompilesExpr(e, n)
    ensures EncodableItems(r)
  {
    match e
    case Value(v) => [Plain(Push(v))]
    case Variable(id) => [Plain(LoadOp(id))]
    case Operator(l, op, r) => GenExpr(l, n) + GenExpr(r, n) + [Plain(OpOf(op))]
    case FunctionCall(id, f, args) =>
      GenArgs(args, n) + [Plain(LoadOp(id))] + [CallTo(n.entity, n.nums[f], |args| % 256)]
    case Send(id, f, args) => [Plain(LoadOp(id))] + GenArgs(args, n) + [Plain(Op.Message(f, |args| % 256))]
  }

  ghost function GenArgs(args: seq<Expr>, n: Naming): (r: seq<Item>)
    requires CompilesArgs(args, n)
    ensures EncodableItems(r)
  {
    if args == [] then [] else GenExpr(args[0], n) + GenArgs(args[1..], n)
  }

  /** derive_type panics on a call directly under a definition. */
  predicate CompilesStmt(s: Stmt, n: Naming) {
    && CompilesExpr(s.expr, n)
    && (s.Definition? ==> !s.expr.FunctionCall?)
    && (s.Definition? || s.Assignment? ==> s.id.target == LocalVar || s.id.target == EntityVar)
  }

  /** What is done with the value of the expression. */
  function LastOp(s: Stmt): Op
    requires s.Definition? || s.Assignment? ==> s.id.target == LocalVar || s.id.target == EntityVar
  {
    match s
    case Definition(id, _) => StoreOp(id)
    case Assignment(id, _) => StoreOp(id)
    case Return(_) => Ret
    case Wait(_) => Op.Await
  }

  ghost function GenStmt(s: Stmt, n: Naming): (r: seq<Item>)
    requires CompilesStmt(s, n)
    ensures EncodableItems(r)
  {
    GenExpr(s.expr, n) + [Plain(LastOp(s))]
  }

  predicate CompilesBody(body: seq<Stmt>, n: Naming) {
    forall i :: 0 <= i < |body| ==> CompilesStmt(body[i], n)
  }

  ghost function GenBody(body: seq<Stmt>, n: Naming): (r: seq<Item>)
    requires CompilesBody(body, n)
    ensures EncodableItems(r)
  {
    if body == [] then [] else GenStmt(body[0], n) + GenBody(body[1..], n)
  }

  ghost function GenParams(params: seq<Text>): (r: seq<Item>)
    ensures EncodableItems(r)
  {
    if params == [] then [] else [Plain(Lstore(params[0]))] + GenParams(params[1..])
  }

  ghost function GenFunction(f: Function, n: Naming): (r: seq<Item>)
    requires CompilesBody(f.body, n)
    ensures EncodableItems(r)
  {
    GenParams(f.params) + GenBody(f.body, n)
  }

  /** The functions of an entity are numbered in their order; names of earlier entities stay. */
  function Numbering(nums: map<Text, nat>, functions: seq<Function>): map<Text, nat> {
    if functions == [] then nums
    else Numbering(nums, functions[..|functions| - 1])[functions[|functions| - 1].name := |functions| - 1]
  }

  // One compiled function.
  datatype Unit = Unit(entity: nat, func: nat, items: seq<Item>)

  predicate CompilesFunctions(functions: seq<Function>, n: Naming) {
    forall i :: 0 <= i < |functions| ==> CompilesBody(functions[i].body, n)
  }

  ghost function UnitsOf(functions: seq<Function>, n: Naming): (r: seq<Unit>)
    requires CompilesFunctions(functions, n)
  {
    seq(|functions|, i requires 0 <= i < |functions| => Unit(n.entity, i, GenFunction(functions[i], n)))
  }

  ghost predicate EncodableUnits(units: seq<Unit>) {
    forall k :: 0 <= k < |units| ==> EncodableItems(units[k].items)
  }

  ghost function AllItems(units: seq<Unit>): (r: seq<Item>)
    requires EncodableUnits(units)
    ensures EncodableItems(r)
  {
    if units == [] then [] else AllItems(units[..|units| - 1]) + units[|units| - 1].items
  }

  /** Where each function stands in the code. */
  ghost function Places(units: seq<Unit>): (r: seq<(nat, nat, Place)>)
    requires EncodableUnits(units)
    ensures |r| == |units|
  {
    if units == [] then []
    else
      var before, last := units[..|units| - 1], units[|units| - 1];
      Places(before) + [(last.entity, last.func, Place(|Raw(AllItems(before))|, |Raw(last.items)|))]
  }

  predicate CompilesModule(defs: seq<Entity>, n: Naming) {
    defs == [] ||
    var m := Naming(n.entity, Numbering(n.nums, defs[0].functions));
    CompilesFunctions(defs[0].functions, m) && CompilesModule(defs[1..], m.(entity := n.entity + 1))
  }

  ghost function GenModule(defs: seq<Entity>, n: Naming): (r: seq<Unit>)
    requires CompilesModule(defs, n)
    ensures EncodableUnits(r)
  {
    if defs == [] then []
    else
      var m := Naming(n.entity, Numbering(n.nums, defs[0].functions));
      UnitsOf(defs[0].functions, m) + GenModule(defs[1..], m.(entity := n.entity + 1))
  }

  /** The variables of each entity, by its number. */
  function DataOf(defs: seq<Entity>): map<nat, set<Text>> {
    map i: nat | i < |defs| :: Members(defs[i].data)
  }

  function InocsOf(defs: seq<Entity>): map<nat, set<Text>> {
    map i: nat | i < |defs| :: Members(defs[i].inocs)
  }

  lemma NamesNone()
    ensures DataOf([]) == map[] && InocsOf([]) == map[]
  {
  }

  lemma NamesSnoc(defs: seq<Entity>, i: nat)
    requires i < |defs|
    ensures DataOf(defs[..i + 1]) == DataOf(defs[..i])[i := Members(defs[i].data)]
    ensures InocsOf(defs[..i + 1]) == InocsOf(defs[..i])[i := Members(defs[i].inocs)]
  {
  }

  // ---- Hash maps, listed in whatever order they are met ----

  ghost predicate ListsNames(rows: seq<(nat, Text)>, values: map<nat, set<Text>>) {
    && (forall i, j :: 0 <= i < j < |rows| ==> rows[i] != rows[j])
    && (forall row :: row in rows <==> row.0 in values && row.1 in values[row.0])
  }

  ghost predicate DistinctKeys<V>(rows: seq<(nat, nat, V)>) {
    forall i, j :: 0 <= i < j < |rows| ==> (rows[i].0, rows[i].1) != (rows[j].0, rows[j].1)
  }

  ghost predicate ListsPlaces(rows: seq<(nat, nat, Place)>, table: Table<nat, Place>) {
    && DistinctKeys(rows)
    && (forall row :: row in rows <==> Has(table, row.0, row.1, row.2))
  }

  // ---- Appending at the end, as the loops do ----

  lemma {:induction false} GenArgsSnoc(args: seq<Expr>, last: Expr, n: Naming)
    requires CompilesArgs(args, n) && CompilesExpr(last, n)
    ensures CompilesArgs(args + [last], n)
    ensures GenArgs(args + [last], n) == GenArgs(args, n) + GenExpr(last, n)
  {
    if args == [] {
      assert args + [last] == [last];
    } else {
      GenArgsSnoc(args[1..], last, n);
      assert (args + [last])[1..] == args[1..] + [last];
      Assoc(GenExpr(args[0], n), GenArgs(args[1..], n), GenExpr(last, n));
    }
  }

  lemma {:induction false} CompilesArgsEach(args: seq<Expr>, n: Naming, i: nat)
    requires CompilesArgs(args, n) && i < |args|
    ensures CompilesExpr(args[i], n) && CompilesArgs(args[..i], n)
  {
    if i > 0 {
      CompilesArgsEach(args[1..], n, i - 1);
      assert args[..i][1..] == args[1..][..i - 1];
    }
  }

  lemma {:induction false} GenBodySnoc(body: seq<Stmt>, last: Stmt, n: Naming)
    requires CompilesBody(body + [last], n)
    ensures CompilesBody(body, n) && CompilesStmt(last, n)
    ensures GenBody(body + [last], n) == GenBody(body, n) + GenStmt(last, n)
  {
    assert (body + [last])[|body|] == last;
    assert forall i :: 0 <= i < |body| ==> (body + [last])[i] == body[i];
    if body == [] {
      assert body + [last] == [last];
    } else {
      assert (body + [last])[1..] == body[1..] + [last];
      GenBodySnoc(body[1..], last, n);
      Assoc(GenStmt(body[0], n), GenBody(body[1..], n), GenStmt(last, n));
    }
  }

  lemma {:induction false} GenParamsSnoc(params: seq<Text>, last: Text)
    ensures GenParams(params + [last]) == GenParams(params) + [Plain(Lstore(last))]
  {
    if params == [] {
      assert params + [last] == [last];
    } else {
      GenParamsSnoc(params[1..], last);
      assert (params + [last])[1..] == params[1..] + [last];
    }
  }

  // ---- The visitor ----

  class GenCode {
    var header: seq<byte>
    var code: seq<byte>
    var relocations: seq<(nat, nat, nat)>
    var functionNum: map<Text, nat>
    var currentEntityId: nat
    var currentFuncId: nat
    var entityFunctionLocations: Table<nat, Place>
    var absoluteEntityFunctionLocations: Addresses

    var entityDataValues: map<nat, set<Text>>
    var entityInoculationValues: map<nat, set<Text>>

    ghost var items: seq<Item>  // everything emitted
    ghost var units: seq<Unit>  // the same, function by function

    /** code and relocations say exactly what has been emitted. */
    ghost predicate Emitted()
      reads this`code, this`relocations, this`items
    {
      EncodableItems(items) && code == Raw(items) && relocations == Relocs(items, 0)
    }

    ghost predicate Valid()
      reads this
    {
      && Emitted() && EncodableUnits(units) && items == AllItems(units)
      && entityFunctionLocations == Gather(Places(units))
    }

    function Here(): Naming
      reads this`currentEntityId, this`functionNum
    {
      Naming(currentEntityId, functionNum)
    }

    constructor ()
      ensures Valid() && units == [] && header == []
      ensures functionNum == map[] && currentEntityId == 0
      ensures entityDataValues == map[] && entityInoculationValues == map[]
    {
      header, code, relocations, functionNum := [], [], [], map[];
      currentEntityId, currentFuncId := 0, 0;
      entityFunctionLocations, absoluteEntityFunctionLocations := map[], map[];
      entityDataValues, entityInoculationValues := map[], map[];
      items, units := [], [];
    }

    method EmitOp(op: Op)
      requires Emitted() && Encodable(op)
      modifies this`code, this`items
      ensures Emitted() && items == old(items) + [Plain(op)]
    {
      hide Encode, Raw, Relocs;
      RawSnoc(items, Plain(op));
      RelocsSnoc(items, Plain(op), 0);
      code := code + Encode(op);
      items := items + [Plain(op)];
    }

    method VisitIdentifier(symbol: Identifier)
      requires Emitted()
      modifies this`code, this`items
      ensures Emitted() && items == old(items) + [Plain(LoadOp(symbol))]
    {
      if symbol.target == LocalVar {
        EmitOp(Lload(symbol.sym));
      } else {
        EmitOp(Eload(symbol.sym));
      }
    }

    /** The call itself: the operand's offset goes into the relocations, an address of 0 into the code. */
    method EmitCall(func: nat, argc: byte)
      requires Emitted()
      modifies this`code, this`items, this`relocations
      ensures Emitted() && items == old(items) + [CallTo(currentEntityId, func, argc)]
    {
      hide Encode, Raw, Relocs;
      ghost var item := CallTo(currentEntityId, func, argc);
      RawSnoc(items, item);
      RelocsSnoc(items, item, 0);
      relocations := relocations + [(currentEntityId, func, |code| + 1)];
      code := code + Encode(Call(0, argc));
      items := items + [item];
    }

    method VisitExpr(e: Expr)
      requires Emitted() && CompilesExpr(e, Here())
      modifies this`code, this`items, this`relocations
      ensures Emitted() && items == old(items) + GenExpr(e, Here())
      decreases e
    {
      hide Emitted;
      match e
      case Value(v) =>
        EmitOp(Push(v));
      case Variable(id) =>
        VisitIdentifier(id);
      case Operator(l, op, r) =>
        VisitExpr(l);
        VisitExpr(r);
        EmitOp(OpOf(op));
        Regroup4(old(items), GenExpr(l, Here()), GenExpr(r, Here()), [Plain(OpOf(op))]);
      case FunctionCall(id, f, args) =>
        VisitArgs(args);
        VisitIdentifier(id);
        EmitCall(functionNum[f], |args| % 256);
        Regroup4(old(items), GenArgs(args, Here()), [Plain(LoadOp(id))],
                 [CallTo(currentEntityId, functionNum[f], |args| % 256)]);
      case Send(id, f, args) =>
        VisitIdentifier(id);
        VisitArgs(args);
        EmitOp(Op.Message(f, |args| % 256));
        Regroup4(old(items), [Plain(LoadOp(id))], GenArgs(args, Here()), [Plain(Op.Message(f, |args| % 256))]);
    }

    method VisitArgs(args: seq<Expr>)
      requires Emitted() && CompilesArgs(args, Here())
      modifies this`code, this`items, this`relocations
      ensures Emitted() && items == old(items) + GenArgs(args, Here())
      decreases args
    {
      hide Emitted;
      for i := 0 to |args|
        invariant Emitted() && CompilesArgs(args[..i], Here())
        invariant items == old(items) + GenArgs(args[..i], Here())
      {
        CompilesArgsEach(args, Here(), i);
        GenArgsSnoc(args[..i], args[i], Here());
        assert args[..i] + [args[i]] == args[..i + 1];
        VisitExpr(args[i]);
        Assoc(old(items), GenArgs(args[..i], Here()), GenExpr(args[i], Here()));
      }
      assert args[..|args|] == args;
    }

    method VisitStmt(s: Stmt)
      requires Emitted() && CompilesStmt(s, Here())
      modifies this`code, this`items, this`relocations
      ensures Emitted() && items == old(items) + GenStmt(s, Here())
    {
      VisitExpr(s.expr);
      if s.Return? {
        EmitOp(Ret);
      } else if s.Wait? {
        EmitOp(Op.Await);
      } else if s.id.target == LocalVar {
        EmitOp(Lstore(s.id.sym));
      } else {
        EmitOp(Estore(s.id.sym));
      }
    }

    method VisitBody(body: seq<Stmt>)
      requires Emitted() && CompilesBody(body, Here())
      modifies this`code, this`items, this`relocations
      ensures Emitted() && items == old(items) + GenBody(body, Here())
    {
      for i := 0 to |body|
        invariant Emitted() && items == old(items) + GenBody(body[..i], Here())
      {
        assert body[..i] + [body[i]] == body[..i + 1];
        GenBodySnoc(body[..i], body[i], Here());
        VisitStmt(body[i]);
        Assoc(old(items), GenBody(body[..i], Here()), GenStmt(body[i], Here()));
      }
      assert body[..|body|] == body;
    }

    method VisitParams(params: seq<Text>)
      requires Emitted()
      modifies this`code, this`items
      ensures Emitted() && items == old(items) + GenParams(params)
    {
      hide Emitted;
      for i := 0 to |params|
        invariant Emitted() && items == old(items) + GenParams(params[..i])
      {
        assert params[..i] + [params[i]] == params[..i + 1];
        GenParamsSnoc(params[..i], params[i]);
        EmitOp(Lstore(params[i]));
      }
      assert params[..|params|] == params;
    }

    /** A function's items, and where they came to stand. */
    method VisitFunction(f: Function)
      requires Valid() && CompilesBody(f.body, Here())
      modifies this`code, this`items, this`units, this`relocations, this`entityFunctionLocations, this`currentFuncId
      ensures Valid() && units == old(units) + [Unit(currentEntityId, old(currentFuncId), GenFunction(f, Here()))]
      ensures currentFuncId == old(currentFuncId) + 1
    {
      hide Encode, Places, AllItems, Gather, Raw, Relocs;
      var start := |code|;
      VisitParams(f.params);
      VisitBody(f.body);
      Assoc(old(items), GenParams(f.params), GenBody(f.body, Here()));
      RawConcat(old(items), GenFunction(f, Here()));
      UnitsSnoc(units, Unit(currentEntityId, currentFuncId, GenFunction(f, Here())));
      units := units + [Unit(currentEntityId, currentFuncId, GenFunction(f, Here()))];
      var size := |code| - start;
      entityFunctionLocations := Insert(entityFunctionLocations, currentEntityId, currentFuncId, Place(start, size));
      currentFuncId := currentFuncId + 1;
    }

    /** The functions get their numbers first, then their code; both times they are sorted anew. */
    method VisitEntityDef(def: Entity)
      requires Valid() && Sorted(def.functions)
      requires CompilesFunctions(def.functions, Naming(currentEntityId, Numbering(functionNum, def.functions)))
      modifies this
      ensures Valid() && header == old(header)
      ensures functionNum == Numbering(old(functionNum), def.functions)
      ensures currentEntityId == old(currentEntityId) + 1
      ensures units == old(units) + UnitsOf(def.functions, Naming(old(currentEntityId), functionNum))
      ensures entityDataValues == old(entityDataValues)[old(currentEntityId) := Members(def.data)]
      ensures entityInoculationValues == old(entityInoculationValues)[old(currentEntityId) := Members(def.inocs)]
    {
      hide AllItems, Places, Gather, Emitted, UnitsOf, CompilesFunctions, Numbering;
      currentFuncId := 0;
      entityDataValues := entityDataValues[currentEntityId := Members(def.data)];
      entityInoculationValues := entityInoculationValues[currentEntityId := Members(def.inocs)];
      var sortedFunctions := SortFunctions(def.functions);
      NumberFunctions(sortedFunctions);
      sortedFunctions := SortFunctions(def.functions);
      VisitFunctions(sortedFunctions);
      currentEntityId := currentEntityId + 1;
    }

    method NumberFunctions(functions: seq<Function>)
      modifies this`functionNum
      ensures functionNum == Numbering(old(functionNum), functions)
    {
      for fid := 0 to |functions|
        invariant functionNum == Numbering(old(functionNum), functions[..fid])
      {
        assert functions[..fid + 1][..fid] == functions[..fid];
        functionNum := functionNum[functions[fid].name := fid];
      }
      assert functions[..|functions|] == functions;
    }

    method VisitFunctions(functions: seq<Function>)
      requires Valid() && currentFuncId == 0 && CompilesFunctions(functions, Here())
      modifies this`code, this`items, this`units, this`relocations, this`entityFunctionLocations, this`currentFuncId
      ensures Valid() && units == old(units) + UnitsOf(functions, Here())
    {
      hide Valid, GenFunction;
      for i := 0 to |functions|
        invariant Valid() && currentFuncId == i
        invariant units == old(units) + UnitsOf(functions, Here())[..i]
      {
        ghost var unit := Unit(currentEntityId, i, GenFunction(functions[i], Here()));
        VisitFunction(functions[i]);
        assert UnitsOf(functions, Here())[..i + 1] == UnitsOf(functions, Here())[..i] + [unit];
      }
      assert UnitsOf(functions, Here())[..|functions|] == UnitsOf(functions, Here());
    }

    method VisitModule(defs: seq<Entity>)
      requires Valid() && CompilesModule(defs, Here()) && units == [] && currentEntityId == 0
      requires forall d :: 0 <= d < |defs| ==> Sorted(defs[d].functions)
      requires entityDataValues == map[] && entityInoculationValues == map[]
      modifies this
      ensures Valid() && units == GenModule(defs, old(Here())) && header == old(header)
      ensures entityDataValues == DataOf(defs) && entityInoculationValues == InocsOf(defs)
    {
      NamesNone();
      hide Valid, UnitsOf, DataOf, InocsOf;
      assert defs[..0] == [];
      for i := 0 to |defs|
        invariant Valid() && header == old(header)
        invariant CompilesModule(defs[i..], Here()) && currentEntityId == i
        invariant units + GenModule(defs[i..], Here()) == GenModule(defs, old(Here()))
        invariant entityDataValues == DataOf(defs[..i]) && entityInoculationValues == InocsOf(defs[..i])
      {
        assert defs[i..][1..] == defs[i + 1..] && defs[i..][0] == defs[i];
        ghost var m := Naming(currentEntityId, Numbering(functionNum, defs[i].functions));
        Assoc(units, UnitsOf(defs[i].functions, m), GenModule(defs[i + 1..], m.(entity := i + 1)));
        VisitEntityDef(defs[i]);
        NamesSnoc(defs, i);
      }
      assert units + [] == units && defs[..|defs|] == defs;
    }

    method BuildEntityDataTable(rows: seq<(nat, Text)>)
      requires ListsNames(rows, entityDataValues)
      modifies this`header
      ensures header == old(header) + PutTable(PutNamed, rows)
    {
      header := BuildNamedTable(header, rows);
    }

    method BuildEntityInoculationTable(rows: seq<(nat, Text)>)
      requires ListsNames(rows, entityInoculationValues)
      modifies this`header
      ensures header == old(header) + PutTable(PutNamed, rows)
    {
      header := BuildNamedTable(header, rows);
    }

    method BuildEntityFunctionLocationTable(rows: seq<(nat, nat, Place)>)
      requires ListsPlaces(rows, entityFunctionLocations)
      modifies this`header, this`absoluteEntityFunctionLocations
      ensures header == old(header) + PutTable(PutFunction(|rows|, |old(header)|), rows)
      ensures absoluteEntityFunctionLocations == Absolute(rows, |rows|, |old(header)|)
    {
      header, absoluteEntityFunctionLocations := BuildFunctionTable(header, rows);
    }

    /** relocate_functions panics on a call to a function that has no address. */
    method RelocateFunctions()
      requires Emitted() && Addressed(items, absoluteEntityFunctionLocations)
      modifies this`code
      ensures code == Linked(items, absoluteEntityFunctionLocations)
    {
      ghost var absolute := absoluteEntityFunctionLocations;
      hide Linked, Relocated, Raw, Relocs, Splice, Addressed, Applicable;
      RelocatedAll(items, absolute);
      assert relocations[0..] == relocations;
      for i := 0 to |relocations|
        invariant Applicable(code, relocations[i..], absolute)
        invariant Relocated(code, relocations[i..], absolute) == Linked(items, absolute)
      {
        RelocateOne(code, relocations[i..], absolute);
        assert relocations[i..][0] == relocations[i] && relocations[i..][1..] == relocations[i + 1..];
        var (ent, func, loc) := relocations[i];
        code := Splice(code, loc, absoluteEntityFunctionLocations[(ent, func)]);
      }
      RelocateNone(code, absolute);
    }
  }

  lemma UnitsSnoc(units: seq<Unit>, unit: Unit)
    requires EncodableUnits(units) && EncodableItems(unit.items)
    ensures EncodableUnits(units + [unit])
    ensures AllItems(units + [unit]) == AllItems(units) + unit.items
    ensures Gather(Places(units + [unit])) ==
            Insert(Gather(Places(units)), unit.entity, unit.func, Place(|Raw(AllItems(units))|, |Raw(unit.items)|))
  {
    var longer := units + [unit];
    assert longer[..|units|] == units;
    assert Places(longer)[..|units|] == Places(units);
  }

  lemma Regroup4<T>(a: seq<T>, b: seq<T>, c: seq<T>, d: seq<T>)
    ensures a + b + c + d == a + (b + c + d)
  {
  }
}
