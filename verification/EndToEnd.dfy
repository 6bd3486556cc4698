/** From source text to an answered message: compilation, linking, loading and running together. */
module EndToEnd {
  import opened Bytes
  import opened Opcodes
  import opened Tables
  import opened Syntax
  import opened Codegen
  import opened Generator
  import opened Linking
  import opened Vats
  import opened VM
  import opened Semantics
  import opened Simulation
  import opened Correctness

  // ---- Where each function of the source ends up ----

  function NamingAt(defs: seq<Entity>, n: Naming, d: nat): Naming
    requires d < |defs|
  {
    var m := Naming(n.entity, Numbering(n.nums, defs[0].functions));
    if d == 0 then m else NamingAt(defs[1..], m.(entity := n.entity + 1), d - 1)
  }

  function InocsAt(defs: seq<Entity>, inocs: set<Text>, d: nat): set<Text>
    requires d < |defs|
  {
    if d == 0 then inocs else InocsAt(defs[1..], inocs + Members(defs[0].inocs), d - 1)
  }

  lemma {:induction false} UnitAt(defs: seq<Entity>, inocs: set<Text>, n: Naming, d: nat, i: nat) returns (k: nat)
    requires CompilesModule(ReferModule(defs, inocs), n) && d < |defs| && i < |defs[d].functions|
    ensures var f, m := ReferFunction(defs[d].functions[i], EntityScope(defs[d], InocsAt(defs, inocs, d))), NamingAt(ReferModule(defs, inocs), n, d);
            && CompilesBody(f.body, m) && m.entity == n.entity + d
            && k < |GenModule(ReferModule(defs, inocs), n)|
            && GenModule(ReferModule(defs, inocs), n)[k] == Unit(n.entity + d, i, GenFunction(f, m))
    decreases d
  {
    hide GenFunction, ReferFunction, CompilesBody;
    var resolved := ReferModule(defs, inocs);
    var m := Naming(n.entity, Numbering(n.nums, resolved[0].functions));
    assert resolved[1..] == ReferModule(defs[1..], inocs + Members(defs[0].inocs));
    if d == 0 {
      k := i;
      assert resolved[0].functions[i] == ReferFunction(defs[0].functions[i], EntityScope(defs[0], inocs));
    } else {
      var j := UnitAt(defs[1..], inocs + Members(defs[0].inocs), m.(entity := n.entity + 1), d - 1, i);
      k := |resolved[0].functions| + j;
    }
  }

  lemma {:induction false} NumberingHas(nums: map<Text, nat>, functions: seq<Function>, i: nat)
    requires (forall j, k :: 0 <= j < k < |functions| ==> functions[j].name != functions[k].name) && i < |functions|
    ensures functions[i].name in Numbering(nums, functions) && Numbering(nums, functions)[functions[i].name] == i
  {
    if i < |functions| - 1 {
      NumberingHas(nums, functions[..|functions| - 1], i);
    }
  }

  lemma {:induction false} NamingHas(defs: seq<Entity>, inocs: set<Text>, n: Naming, d: nat, i: nat)
    requires d < |defs| && i < |defs[d].functions| && Sorted(defs[d].functions)
    ensures var nums := NamingAt(ReferModule(defs, inocs), n, d).nums;
            defs[d].functions[i].name in nums && nums[defs[d].functions[i].name] == i
    decreases d
  {
    var resolved := ReferModule(defs, inocs);
    if d == 0 {
      forall j, k | 0 <= j < k < |defs[0].functions|
        ensures resolved[0].functions[j].name != resolved[0].functions[k].name
      {
        NamedApart(defs[0].functions, j, k);
      }
      NumberingHas(n.nums, resolved[0].functions, i);
    } else {
      assert resolved[1..] == ReferModule(defs[1..], inocs + Members(defs[0].inocs));
      NamingHas(defs[1..], inocs + Members(defs[0].inocs),
                Naming(n.entity + 1, Numbering(n.nums, resolved[0].functions)), d - 1, i);
    }
  }

  // ---- The whole program ----

  // A source program, and the order in which the hash maps yielded their rows when it was compiled.
  datatype Project = Project(defs: seq<Entity>, rows: Rows)
  {
    function Resolved(): seq<Entity> {
      ReferModule(defs, {})
    }

    ghost function Units(): seq<Unit>
      requires CompilesModule(Resolved(), Naming(0, map[]))
    {
      GenModule(Resolved(), Naming(0, map[]))
    }

    /** The preconditions of CompileFromAst, and every count, number and offset in its field. */
    ghost predicate Compiles() {
      && CompilesModule(Resolved(), Naming(0, map[]))
      && (forall d :: 0 <= d < |defs| ==> Sorted(defs[d].functions))
      && ListsNames(rows.data, DataOf(Resolved())) && ListsNames(rows.inocs, InocsOf(Resolved()))
      && ListsPlaces(rows.functions, Gather(Places(Units())))
      && Addressed(AllItems(Units()), rows.Absolute())
      && rows.Readable() && rows.Fits(|Output(Units(), rows)|)
    }

    /** What CompileFromAst returns. */
    ghost function Code(): seq<byte>
      requires Compiles()
    {
      Output(Units(), rows)
    }

    /** Every name and string is free of NUL. */
    ghost predicate Printable()
      requires Compiles()
    {
      forall k :: 0 <= k < |Units()| ==> CleanItems(Units()[k].items)
    }

    /** The functions of entity d are well scoped. */
    ghost predicate Scoped(d: nat)
      requires d < |defs|
    {
      forall i :: 0 <= i < |defs[d].functions| ==>
        WellScoped(defs[d].functions[i].body, Members(defs[d].functions[i].params))
    }

    ghost function Build(d: nat): Build
      requires Compiles() && d < |defs|
    {
      Simulation.Build.Build(Code(), defs[d].functions, EntityScope(defs[d], InocsAt(defs, {}, d)),
                             NamingAt(Resolved(), Naming(0, map[]), d), rows.Absolute())
    }
  }

  ghost predicate CleanItems(items: seq<Item>) {
    forall i :: 0 <= i < |items| ==> EncodableItem(items[i]) && NulFreeOp(RawOp(items[i]))
  }

  lemma {:induction false} CleanLinked(items: seq<Item>, absolute: Addresses)
    requires CleanItems(items) && Addressed(items, absolute)
    ensures Clean(LinkedOps(items, absolute))
  {
    hide Encodable, NulFreeOp;
    if items != [] {
      assert [items[0]] + items[1..] == items;
      AddressedParts([items[0]], items[1..], absolute);
      CleanLinked(items[1..], absolute);
      CleanOne(items[0], absolute);
    }
  }

  lemma CleanOne(item: Item, absolute: Addresses)
    requires EncodableItem(item) && NulFreeOp(RawOp(item)) && Addressed([item], absolute)
    ensures Encodable(LinkedOp(item, absolute)) && NulFreeOp(LinkedOp(item, absolute))
  {
  }

  /** Every unit lies where its relocated address says, and the loader finds it there. */
  lemma UnitLies(units: seq<Unit>, rows: Rows, k: nat) returns (end: nat)
    requires WellLinked(units, rows) && k < |units| && CleanItems(units[k].items)
    ensures Addressed(units[k].items, rows.Absolute()) && (units[k].entity, units[k].func) in rows.Absolute()
    ensures var start := rows.Absolute()[(units[k].entity, units[k].func)];
            && Lies(Output(units, rows), start, end, LinkedOps(units[k].items, rows.Absolute()))
            && units[k].entity in rows.Loaded() && units[k].func in rows.Loaded()[units[k].entity]
            && rows.Loaded()[units[k].entity][units[k].func].start == start
  {
    hide Output, LinkedOps, Places, Gather, AllItems, Addressed, Linked, Clean, Where, Rows.Loaded, Rows.Absolute;
    LinkCorrect(units, rows, k);
    CleanLinked(units[k].items, rows.Absolute());
    SweepsFunction(units, rows, k);
    var place := Where(units, rows, k);
    end := place.start + place.size;
    SweepLies(Output(units, rows), place.start, end, LinkedOps(units[k].items, rows.Absolute()));
  }

  /** Function i of entity d: where the loader finds it, and that its own instructions lie there. */
  lemma FunctionInstalled(p: Project, d: nat, i: nat)
    requires p.Compiles() && p.Printable() && d < |p.defs| && p.Scoped(d) && i < |p.defs[d].functions|
    ensures ReadyFunction(p.Build(d), i) && (p.Build(d).naming.entity, i) in p.rows.Absolute()
    ensures d in p.rows.Loaded() && i in p.rows.Loaded()[d] && p.rows.Loaded()[d][i].start == p.Build(d).Start(i)
  {
    hide Output, LinkedOps, GenModule, CompilesModule, Places, Gather, AllItems, ReferModule, Addressed, Rows.Fits, ListsPlaces,
         Linked, WellScoped, GenParams, GenBody, CompilesBody, Clean, Lies, NamingAt, InocsAt, Rows.Loaded, Rows.Absolute;
    var k := UnitAt(p.defs, {}, Naming(0, map[]), d, i);
    var items := p.Units()[k].items;
    ModuleUnits(p.Resolved(), Naming(0, map[]));
    var end := UnitLies(p.Units(), p.rows, k);
    assert Placed(p.Build(d), p.Build(d).Start(i), end, items);
  }

  lemma SweepLies(code: seq<byte>, x: nat, y: nat, ops: seq<Op>)
    requires Sweep(x, y, code) == Some((y, ops))
    ensures Lies(code, x, y, ops)
  {
  }

  lemma ProjectInstalled(p: Project, d: nat)
    requires p.Compiles() && p.Printable() && d < |p.defs| && p.Scoped(d)
    ensures Installed(p.Build(d))
  {
    assert Sorted(p.defs[d].functions);
    hide Sorted, ReadyFunction, Project.Compiles, Project.Printable;
    forall i | 0 <= i < |p.defs[d].functions|
      ensures ReadyFunction(p.Build(d), i)
      ensures p.defs[d].functions[i].name in p.Build(d).naming.nums
      ensures p.Build(d).naming.nums[p.defs[d].functions[i].name] == i
    {
      FunctionInstalled(p, d, i);
      NamingHas(p.defs, {}, Naming(0, map[]), d, i);
    }
  }

  /** run_msg's three loaders yield the function table that was written. */
  lemma TableLoads(rows: Rows, code: seq<byte>)
    requires rows.Readable()
    ensures FunctionTable(rows.Header() + code) == Some(rows.Loaded())
  {
    hide ReadTable, Shown, Rows.Header, Rows.Named, PutTable, Gather, SeenNamed, SeenFunction, ReadNamed, ReadFunction, InBounds;
    NamedInBounds();
    FunctionInBounds();
    HeaderReadsBack(rows, code);
  }

  // ---- Messages ----

  /** The meaning of calling function i of entity d with these arguments, on entity 0. */
  function RequestMeaning(order: Order, functions: seq<Function>, i: nat, values: seq<Hvalue>, depth: nat, es: Entities): Option<(Hvalue, Entities)>
    requires i < |functions| && |functions[i].params| == |values|
  {
    EvalBody(World(order, functions), depth, functions[i].body, 0, Bind(functions[i].params, values, map[]), es)
  }

  /** The run of function i from a new root frame up to its Ret, which halts. */
  lemma RootRuns(b: Build, cx: Running, i: nat, values: seq<Hvalue>, depth: nat, m: Machine) returns (n: nat, last: Machine)
    requires Installed(b) && cx.code == b.code && i < |b.functions|
    requires |b.functions[i].params| == |values| && NoPromises(values)
    requires RequestMeaning(AsCompiled, b.functions, i, values, depth, m.entities).Some?
    requires m.opStack == [] && (b.naming.entity, i) in b.absolute
    ensures var (v, es) := RequestMeaning(AsCompiled, b.functions, i, values, depth, m.entities).value;
            var started := m.(pc := b.Start(i), opStack := m.opStack + Reversed(values),
                              callStack := m.callStack + [Frame.Frame(0, map[], None)]);
            && last == m.(pc := last.pc, opStack := [v], entities := es)
            && forall fuel :: fuel >= n ==> Run(cx, started, fuel) == Some(Halt(last))
  {
    hide Step, Installed;
    var started := m.(pc := b.Start(i), opStack := m.opStack + Reversed(values),
                      callStack := m.callStack + [Frame.Frame(0, map[], None)]);
    var nb, m3, z := FunctionRuns(b, cx, depth, i, values, [], started);
    n := nb + 1;
    last := m3.(pc := z, callStack := m3.callStack[..|m3.callStack| - 1]);
    assert last.callStack == m.callStack;
    assert Step(cx, m3) == Halt(last);
    forall fuel | fuel >= n
      ensures Run(cx, started, fuel) == Some(Halt(last))
    {
      RunAfter(cx, started, n - 1, fuel - n + 1);
    }
  }

  /** A request to a compiled function is answered with what the source means: the value goes back to
      the sender under its promise, the entities are changed as the source says, and nothing else is. */
  lemma RequestMeans(p: Project, d: nat, i: nat, values: seq<Hvalue>, depth: nat, msg: Msg, m: Machine)
    returns (needed: nat, m': Machine)
    requires p.Compiles() && p.Printable() && d < |p.defs| && p.Scoped(d) && i < |p.defs[d].functions|
    requires msg.contents.Request? && msg.contents.func == i && msg.contents.args == Reversed(values)
    requires m.opStack == [] && msg.dst.entity in m.entities && m.entities[msg.dst.entity].kind == d
    requires |values| == |p.defs[d].functions[i].params| && NoPromises(values)
    requires RequestMeaning(AsCompiled, p.defs[d].functions, i, values, depth, m.entities).Some?
    ensures var (v, es) := RequestMeaning(AsCompiled, p.defs[d].functions, i, values, depth, m.entities).value;
            var answer := Msg(msg.dst, msg.src, Response(v, msg.contents.srcPromise));
            && m' == m.(pc := m'.pc, entities := es)
            && forall fuel :: fuel >= needed ==>
                 Handle(p.Code(), m, msg, fuel) == Some(Handled(m', if msg.contents.noResponse then None else Some(answer)))
  {
    hide Run, RequestMeaning, Installed, ReadyFunction, Output, Rows.Loaded, FunctionTable;
    var cx := Running(p.Code(), msg, msg.contents.srcPromise);
    FunctionInstalled(p, d, i);
    ProjectInstalled(p, d);
    CodeShape(p);
    assert p.Build(d).naming.entity == d by { EntityNumber(p, d); }
    var last;
    needed, last := RootRuns(p.Build(d), cx, i, values, depth, m);
    m' := last.Popped(1);
  }

  lemma CodeShape(p: Project)
    requires p.Compiles()
    ensures FunctionTable(p.Code()) == Some(p.rows.Loaded())
  {
    hide FunctionTable, Rows.Loaded, Rows.Header;
    TableLoads(p.rows, Linked(AllItems(p.Units()), p.rows.Absolute()));
  }

  lemma {:induction false} EntityNumber(p: Project, d: nat)
    requires p.Compiles() && d < |p.defs|
    ensures p.Build(d).naming.entity == d
  {
    NamingEntity(p.Resolved(), Naming(0, map[]), d);
  }

  lemma {:induction false} NamingEntity(defs: seq<Entity>, n: Naming, d: nat)
    requires d < |defs|
    ensures NamingAt(defs, n, d).entity == n.entity + d
    decreases d
  {
    if d > 0 {
      NamingEntity(defs[1..], Naming(n.entity + 1, Numbering(n.nums, defs[0].functions)), d - 1);
    }
  }

  // ---- The methods together ----

  lemma HandleMore(code: seq<byte>, m: Machine, msg: Msg, fuel: nat, more: nat)
    requires msg.contents.Request? && Handle(code, m, msg, fuel).Some?
    ensures Handle(code, m, msg, fuel + more) == Handle(code, m, msg, fuel)
  {
    hide Run, FunctionTable;
    var table := FunctionTable(code);
    if table.Some? && msg.dst.entity in m.entities {
      var kind, func := m.entities[msg.dst.entity].kind, msg.contents.func;
      if kind in table.value && func in table.value[kind] {
        var started := m.(pc := table.value[kind][func].start, opStack := m.opStack + msg.contents.args,
                          callStack := m.callStack + [Frame.Frame(0, map[], None)]);
        RunMore(Running(code, msg, msg.contents.srcPromise), started, fuel, more);
      }
    }
  }

  /** Handling this message takes at most so many instructions. */
  ghost predicate Enough(code: seq<byte>, m: Machine, msg: Msg, needed: nat) {
    forall fuel :: fuel >= needed ==> Handle(code, m, msg, fuel).Some?
  }

  ghost function Needed(code: seq<byte>, m: Machine, msg: Msg): (needed: nat)
    requires exists n :: Enough(code, m, msg, n)
    ensures Enough(code, m, msg, needed)
  {
    var n :| Enough(code, m, msg, n);
    n
  }

  /** However many instructions it was given, if handling ends it ends like this. */
  lemma RequestOnlyMeans(p: Project, d: nat, i: nat, values: seq<Hvalue>, depth: nat, msg: Msg, m: Machine) returns (m': Machine)
    requires p.Compiles() && p.Printable() && d < |p.defs| && p.Scoped(d) && i < |p.defs[d].functions|
    requires msg.contents.Request? && msg.contents.func == i && msg.contents.args == Reversed(values)
    requires m.opStack == [] && msg.dst.entity in m.entities && m.entities[msg.dst.entity].kind == d
    requires |values| == |p.defs[d].functions[i].params| && NoPromises(values)
    requires RequestMeaning(AsCompiled, p.defs[d].functions, i, values, depth, m.entities).Some?
    ensures exists n :: Enough(p.Code(), m, msg, n)
    ensures var (v, es) := RequestMeaning(AsCompiled, p.defs[d].functions, i, values, depth, m.entities).value;
            var answer := Msg(msg.dst, msg.src, Response(v, msg.contents.srcPromise));
            && m' == m.(pc := m'.pc, entities := es)
            && forall fuel :: Handle(p.Code(), m, msg, fuel).Some? ==>
                 Handle(p.Code(), m, msg, fuel) == Some(Handled(m', if msg.contents.noResponse then None else Some(answer)))
  {
    hide Handle, RequestMeaning, Project.Compiles, Project.Printable, Project.Scoped, Output;
    var needed;
    needed, m' := RequestMeans(p, d, i, values, depth, msg, m);
    var h := Handle(p.Code(), m, msg, needed);
    SettlesOn(p.Code(), m, msg, needed, h.value);
  }

  lemma SettlesOn(code: seq<byte>, m: Machine, msg: Msg, needed: nat, h: Handled)
    requires msg.contents.Request? && forall fuel :: fuel >= needed ==> Handle(code, m, msg, fuel) == Some(h)
    ensures Enough(code, m, msg, needed)
    ensures forall fuel :: Handle(code, m, msg, fuel).Some? ==> Handle(code, m, msg, fuel) == Some(h)
  {
    hide Handle;
    forall fuel | Handle(code, m, msg, fuel).Some?
      ensures Handle(code, m, msg, fuel) == Some(h)
    {
      HandleMore(code, m, msg, fuel, needed);
    }
  }

  /** From the source to the answer: the compiler, and then the machine on what it wrote. With enough
      instructions it comes to an end, and if it does, what the source means has been done to the vat
      and is sent to whoever asked. */
  method CompileAndServe(defs: seq<Entity>, rows: Rows, vat: Vat, msg: Msg, fuel: nat,
                         ghost d: nat, ghost values: seq<Hvalue>, ghost depth: nat)
    returns (out: Option<Msg>, failed: bool, timeout: bool)
    requires var p := Project(defs, rows);
             && p.Compiles() && p.Printable() && d < |defs| && p.Scoped(d)
             && msg.contents.Request? && msg.contents.func < |defs[d].functions|
    requires var i := msg.contents.func;
             && msg.contents.args == Reversed(values)
             && vat.opStack == [] && msg.dst.entity in vat.entities && vat.entities[msg.dst.entity].kind == d
             && |values| == |defs[d].functions[i].params| && NoPromises(values)
             && RequestMeaning(AsCompiled, defs[d].functions, i, values, depth, vat.entities).Some?
    modifies vat
    ensures exists n :: Enough(Project(defs, rows).Code(), old(vat.At(0)), msg, n)
    ensures timeout ==> fuel < Needed(Project(defs, rows).Code(), old(vat.At(0)), msg)
    ensures !timeout ==>
              var (v, es) := RequestMeaning(AsCompiled, defs[d].functions, msg.contents.func, values, depth, old(vat.entities)).value;
              && !failed
              && vat.At(0) == old(vat.At(0)).(entities := es)
              && out == if msg.contents.noResponse then None else Some(Msg(msg.dst, msg.src, Response(v, msg.contents.srcPromise)))
  {
    ghost var p, m := Project(defs, rows), vat.At(0);
    ghost var m' := RequestOnlyMeans(p, d, msg.contents.func, values, depth, msg, m);
    hide Handle, RequestMeaning, Project.Printable, Project.Scoped, Output;
    var code := CompileFromAst(defs, rows);
    hide Project.Compiles;
    ghost var x;
    out, failed, timeout, x := vat.RunMsg(code, msg, fuel);
    assert vat.At(0) == vat.At(x).(pc := 0);
  }

  /** Without Sub and Div the meaning is the natural one, so compilation preserves it. */
  lemma NaturalMeaning(functions: seq<Function>, i: nat, values: seq<Hvalue>, depth: nat, es: Entities)
    requires i < |functions| && |functions[i].params| == |values| && CommutesAll(functions)
    ensures RequestMeaning(Natural, functions, i, values, depth, es) == RequestMeaning(AsCompiled, functions, i, values, depth, es)
  {
    SameMeaningBody(functions, depth, functions[i].body, 0, Bind(functions[i].params, values, map[]), es);
  }
}
