/** The compiled file as a whole (src/compile.rs:93-163) and what the loaders find in it. */
module Linking {
  import opened Bytes
  import opened Opcodes
  import opened Tables
  import opened Syntax
  import opened Codegen
  import opened Generator

  // The tables in the order the hash maps yield their entries.
  datatype Rows = Rows(data: seq<(nat, Text)>, inocs: seq<(nat, Text)>, functions: seq<(nat, nat, Place)>)
  {
    function Named(): seq<byte> {
      PutTable(PutNamed, data) + PutTable(PutNamed, inocs)
    }

    function Header(): seq<byte> {
      Named() + PutTable(PutFunction(|functions|, |Named()|), functions)
    }

    /** The counts fit their byte, and names can be read back. */
    ghost predicate Readable() {
      && |data| < 256 && |inocs| < 256 && |functions| < 256
      && (forall i :: 0 <= i < |data| ==> NulFree(data[i].1))
      && (forall i :: 0 <= i < |inocs| ==> NulFree(inocs[i].1))
    }

    /** Numbers, offsets and sizes fit their fields. */
    ghost predicate Fits(length: nat) {
      length < U16 && forall i :: 0 <= i < |functions| ==>
        functions[i].0 < 256 && functions[i].1 < 256
        && |Header()| + functions[i].2.start + functions[i].2.size <= length
    }

    /** What the function table loader makes of the header. */
    ghost function Loaded(): Table<nat, Place> {
      Gather(Shown(SeenFunction(|functions|, |Named()|), functions))
    }

    function Absolute(): Addresses {
      Tables.Absolute(functions, |functions|, |Named()|)
    }
  }

  ghost function Output(units: seq<Unit>, rows: Rows): seq<byte>
    requires EncodableUnits(units) && Addressed(AllItems(units), rows.Absolute())
  {
    rows.Header() + Linked(AllItems(units), rows.Absolute())
  }

  /** compile_from_ast: the passes in their order. The preconditions are the panics of the passes, and
      that a tree lists a hash map. */
  method CompileFromAst(defs: seq<Entity>, rows: Rows) returns (output: seq<byte>)
    requires forall d :: 0 <= d < |defs| ==> Sorted(defs[d].functions)
    requires CompilesModule(ReferModule(defs, {}), Naming(0, map[]))
    requires ListsNames(rows.data, DataOf(ReferModule(defs, {}))) && ListsNames(rows.inocs, InocsOf(ReferModule(defs, {})))
    requires ListsPlaces(rows.functions, Gather(Places(GenModule(ReferModule(defs, {}), Naming(0, map[])))))
    requires Addressed(AllItems(GenModule(ReferModule(defs, {}), Naming(0, map[]))), rows.Absolute())
    ensures output == Output(GenModule(ReferModule(defs, {}), Naming(0, map[])), rows)
  {
    ReferSorted(defs, {});
    hide Sorted, Gather, Places, GenModule, CompilesModule, ReferModule, AllItems, ListsNames, ListsPlaces,
         DataOf, InocsOf, Addressed, Output, Tables.Absolute;
    var flow := new VariableFlow();
    var resolved := flow.VisitModule(defs);
    output := Generate(resolved, rows);
  }

  /** The code generator's part. */
  method Generate(resolved: seq<Entity>, rows: Rows) returns (output: seq<byte>)
    requires forall d :: 0 <= d < |resolved| ==> Sorted(resolved[d].functions)
    requires CompilesModule(resolved, Naming(0, map[]))
    requires ListsNames(rows.data, DataOf(resolved)) && ListsNames(rows.inocs, InocsOf(resolved))
    requires ListsPlaces(rows.functions, Gather(Places(GenModule(resolved, Naming(0, map[])))))
    requires Addressed(AllItems(GenModule(resolved, Naming(0, map[]))), rows.Absolute())
    ensures output == Output(GenModule(resolved, Naming(0, map[])), rows)
  {
    hide Sorted, PutTable, Gather, Places, GenModule, CompilesModule, Linked, AllItems, Raw, Relocs,
         ListsNames, ListsPlaces, DataOf, InocsOf, Addressed, Tables.Absolute;
    var gen := new GenCode();
    gen.VisitModule(resolved);
    gen.BuildEntityDataTable(rows.data);
    gen.BuildEntityInoculationTable(rows.inocs);
    assert gen.header == rows.Named();
    gen.BuildEntityFunctionLocationTable(rows.functions);
    gen.RelocateFunctions();
    output := gen.header + gen.code;
  }

  lemma {:induction false} ReferSorted(defs: seq<Entity>, inocs: set<Text>)
    requires forall d :: 0 <= d < |defs| ==> Sorted(defs[d].functions)
    ensures forall d :: 0 <= d < |defs| ==> Sorted(ReferModule(defs, inocs)[d].functions)
  {
    if defs != [] {
      ReferSorted(defs[1..], inocs + Members(defs[0].inocs));
      assert Names(ReferEntity(defs[0], inocs).functions) == Names(defs[0].functions);
    }
  }

  // ---- Positions ----

  lemma {:induction false} LinkedLength(items: seq<Item>, absolute: Addresses)
    requires EncodableItems(items) && Addressed(items, absolute)
    ensures |Linked(items, absolute)| == |Raw(items)|
  {
    hide Linked, Encode;
    if items == [] {
      LinkedNone(absolute);
    } else {
      LinkedCons(items, absolute);
      Codegen.LinkedLength(items[0], absolute);
      LinkedLength(items[1..], absolute);
    }
  }

  lemma LinkedJoin(a: seq<Item>, b: seq<Item>, absolute: Addresses)
    requires EncodableItems(a) && EncodableItems(b) && Addressed(a + b, absolute)
    ensures Addressed(a, absolute) && Addressed(b, absolute)
    ensures Linked(a + b, absolute) == Linked(a, absolute) + Linked(b, absolute)
  {
    LinkedConcat(a, b, absolute);
    EncodeAllConcat(LinkedOps(a, absolute), LinkedOps(b, absolute));
  }

  /** Relocation moved nothing: each function's linked bytes are where its place says. */
  lemma {:induction false} PlaceHolds(units: seq<Unit>, k: nat, absolute: Addresses)
    requires EncodableUnits(units) && Addressed(AllItems(units), absolute) && k < |units|
    ensures Addressed(units[k].items, absolute)
    ensures var (ent, func, place) := Places(units)[k];
            && ent == units[k].entity && func == units[k].func
            && place.start + place.size <= |Linked(AllItems(units), absolute)|
            && Linked(AllItems(units), absolute)[place.start..][..place.size] == Linked(units[k].items, absolute)
  {
    var before, last := units[..|units| - 1], units[|units| - 1];
    LinkedJoin(AllItems(before), last.items, absolute);
    LinkedLength(AllItems(before), absolute);
    LinkedLength(last.items, absolute);
    if k < |units| - 1 {
      PlaceHolds(before, k, absolute);
      assert Places(units)[k] == Places(before)[k];
      InPrefix(Linked(AllItems(before), absolute), Linked(last.items, absolute),
               Places(units)[k].2.start, Places(units)[k].2.size);
    } else {
      var first, second := Linked(AllItems(before), absolute), Linked(last.items, absolute);
      assert (first + second)[|first|..][..|second|] == second;
    }
  }

  lemma InPrefix<T>(a: seq<T>, b: seq<T>, start: nat, size: nat)
    requires start + size <= |a|
    ensures (a + b)[start..][..size] == a[start..][..size]
  {
  }

  /** No two functions have the same pair of numbers. */
  lemma {:induction false} ModuleUnits(defs: seq<Entity>, n: Naming)
    requires CompilesModule(defs, n)
    ensures DistinctKeys(Places(GenModule(defs, n)))
  {
    var units := GenModule(defs, n);
    forall i, j | 0 <= i < j < |units|
      ensures (units[i].entity, units[i].func) != (units[j].entity, units[j].func)
    {
      UnitsInOrder(defs, n, i, j);
    }
    PlacesKeys(units);
  }

  lemma {:induction false} UnitsInOrder(defs: seq<Entity>, n: Naming, i: nat, j: nat)
    requires CompilesModule(defs, n) && i < j < |GenModule(defs, n)|
    ensures var units := GenModule(defs, n);
            && n.entity <= units[i].entity <= units[j].entity
            && (units[i].entity == units[j].entity ==> units[i].func < units[j].func)
  {
    hide GenFunction;
    if defs != [] {
      var m := Naming(n.entity, Numbering(n.nums, defs[0].functions));
      var here := |defs[0].functions|;
      if i >= here {
        UnitsInOrder(defs[1..], m.(entity := n.entity + 1), i - here, j - here);
      } else if j >= here {
        UnitAbove(defs[1..], m.(entity := n.entity + 1), j - here);
      }
    }
  }

  lemma {:induction false} UnitAbove(defs: seq<Entity>, n: Naming, j: nat)
    requires CompilesModule(defs, n) && j < |GenModule(defs, n)|
    ensures n.entity <= GenModule(defs, n)[j].entity
  {
    hide GenFunction;
    if defs != [] {
      var m := Naming(n.entity, Numbering(n.nums, defs[0].functions));
      if j >= |defs[0].functions| {
        UnitAbove(defs[1..], m.(entity := n.entity + 1), j - |defs[0].functions|);
      }
    }
  }

  lemma {:induction false} PlacesKeys(units: seq<Unit>)
    requires EncodableUnits(units)
    ensures forall k :: 0 <= k < |units| ==> Places(units)[k].0 == units[k].entity && Places(units)[k].1 == units[k].func
  {
    hide Raw, AllItems;
    if units != [] {
      PlacesKeys(units[..|units| - 1]);
    }
  }

  // ---- Reading the header ----

  lemma NamedTableReads(rows: seq<(nat, Text)>, post: seq<byte>)
    requires forall i :: 0 <= i < |rows| ==> NulFree(rows[i].1)
    ensures (ReadTable(ReadNamed, PutTable(PutNamed, rows) + post)
               == Some((|PutTable(PutNamed, rows)|, Shown(SeenNamed, rows))))
            <==> |rows| < 256
  {
    NamedInBounds();
    forall i, rest: seq<byte> | 0 <= i < |rows|
      ensures ReadNamed(PutNamed(rows[i]) + rest) == Some((|PutNamed(rows[i])|, SeenNamed(rows[i])))
    {
      NamedRow(rows[i], rest);
    }
    TableRoundTrip(ReadNamed, PutNamed, SeenNamed, rows, post);
  }

  lemma FunctionTableReads(rows: seq<(nat, nat, Place)>, count: nat, headerLength: nat, post: seq<byte>)
    ensures |PutTable(PutFunction(count, headerLength), rows)| == 1 + 6 * |rows|
    ensures (ReadTable(ReadFunction, PutTable(PutFunction(count, headerLength), rows) + post)
               == Some((1 + 6 * |rows|, Shown(SeenFunction(count, headerLength), rows))))
            <==> |rows| < 256
  {
    FunctionInBounds();
    var put, seen := PutFunction(count, headerLength), SeenFunction(count, headerLength);
    forall i, rest: seq<byte> | 0 <= i < |rows|
      ensures ReadFunction(put(rows[i]) + rest) == Some((|put(rows[i])|, seen(rows[i])))
    {
      FunctionRow(count, headerLength, rows[i], rest);
    }
    FunctionRowsLength(count, headerLength, rows);
    TableRoundTrip(ReadFunction, put, seen, rows, post);
  }

  /** The three loaders, each starting where the one before stopped, read the three tables back
      and stop where the code begins. */
  lemma HeaderReadsBack(rows: Rows, code: seq<byte>)
    requires rows.Readable()
    ensures var output, n, m := rows.Header() + code, |PutTable(PutNamed, rows.data)|, |rows.Named()|;
            && ReadTable(ReadNamed, output) == Some((n, Shown(SeenNamed, rows.data)))
            && ReadTable(ReadNamed, output[n..]) == Some((m - n, Shown(SeenNamed, rows.inocs)))
            && ReadTable(ReadFunction, output[m..])
                 == Some((|rows.Header()| - m, Shown(SeenFunction(|rows.functions|, m), rows.functions)))
  {
    hide PutTable, ReadTable, Shown;
    var data, inocs := PutTable(PutNamed, rows.data), PutTable(PutNamed, rows.inocs);
    var functions := PutTable(PutFunction(|rows.functions|, |rows.Named()|), rows.functions);
    NamedTableReads(rows.data, inocs + (functions + code));
    NamedTableReads(rows.inocs, functions + code);
    FunctionTableReads(rows.functions, |rows.functions|, |rows.Named()|, code);
    var output := data + inocs + functions + code;
    assert output == data + (inocs + (functions + code));
    assert output[|data|..] == inocs + (functions + code);
    assert output[|data + inocs|..] == functions + code;
  }

  lemma {:induction false} AbsoluteHas(rows: seq<(nat, nat, Place)>, count: nat, headerLength: nat, i: nat)
    requires DistinctKeys(rows) && i < |rows|
    ensures (rows[i].0, rows[i].1) in Tables.Absolute(rows, count, headerLength)
    ensures Tables.Absolute(rows, count, headerLength)[(rows[i].0, rows[i].1)]
         == FinalStart(rows[i].2.start, count, headerLength)
  {
    if i < |rows| - 1 {
      AbsoluteHas(rows[..|rows| - 1], count, headerLength, i);
    }
  }

  /** When everything fits, the loaded table is the written one, moved behind the header. */
  lemma LoadedHas(rows: Rows, length: nat, ent: nat, func: nat, place: Place)
    requires rows.Fits(length) && DistinctKeys(rows.functions)
    ensures Has(rows.Loaded(), ent, func, place) <==>
            place.start >= |rows.Header()| && (ent, func, Place(place.start - |rows.Header()|, place.size)) in rows.functions
  {
    var h, fs := |rows.Header()|, rows.functions;
    var loaded := Shown(SeenFunction(|fs|, |rows.Named()|), fs);
    forall i | 0 <= i < |fs|
      ensures loaded[i] == (fs[i].0, fs[i].1, Place(h + fs[i].2.start, fs[i].2.size))
    {
      SeenPlace(rows, length, i);
    }
    hide Gather, Shown, SeenFunction, Rows.Header, Rows.Fits;
    MovedRows(fs, h, loaded, ent, func, place);
    GatherHas(loaded, ent, func, place);
  }

  /** The loader sees each row's numbers and its place behind the header. */
  lemma SeenPlace(rows: Rows, length: nat, i: nat)
    requires rows.Fits(length) && i < |rows.functions|
    ensures var row := rows.functions[i];
            SeenFunction(|rows.functions|, |rows.Named()|)(row)
            == (row.0, row.1, Place(|rows.Header()| + row.2.start, row.2.size))
  {
    hide PutTable, Rows.Named;
    FunctionTableReads(rows.functions, |rows.functions|, |rows.Named()|, []);
    SeenExactly(rows.functions[i], |rows.functions|, |rows.Named()|);
  }

  lemma MovedRows(rows: seq<(nat, nat, Place)>, offset: nat, moved: seq<(nat, nat, Place)>, ent: nat, func: nat, place: Place)
    requires |moved| == |rows|
    requires forall i :: 0 <= i < |rows| ==> moved[i] == (rows[i].0, rows[i].1, Place(offset + rows[i].2.start, rows[i].2.size))
    ensures (ent, func, place) in moved <==>
            place.start >= offset && (ent, func, Place(place.start - offset, place.size)) in rows
  {
    if (ent, func, place) in moved {
      var i: nat :| i < |moved| && moved[i] == (ent, func, place);
      assert rows[i] == (ent, func, Place(place.start - offset, place.size));
    }
    if place.start >= offset && (ent, func, Place(place.start - offset, place.size)) in rows {
      var i: nat :| i < |rows| && rows[i] == (ent, func, Place(place.start - offset, place.size));
      assert moved[i] == (ent, func, place);
    }
  }

  lemma SeenExactly(row: (nat, nat, Place), count: nat, headerLength: nat)
    ensures (SeenFunction(count, headerLength)(row)
               == (row.0, row.1, Place(row.2.start + 1 + count * 6 + headerLength, row.2.size)))
            <==> row.0 < 256 && row.1 < 256 && row.2.start + 1 + count * 6 + headerLength < U16 && row.2.size < U16
  {
  }

  // ---- The output as a whole ----

  /** What CompileFromAst is called with and leaves behind, with every number in its field. */
  ghost predicate WellLinked(units: seq<Unit>, rows: Rows) {
    && EncodableUnits(units) && Addressed(AllItems(units), rows.Absolute())
    && DistinctKeys(Places(units)) && ListsPlaces(rows.functions, Gather(Places(units)))
    && rows.Fits(|Output(units, rows)|)
  }

  /** Where function k stands in the output. */
  ghost function Where(units: seq<Unit>, rows: Rows, k: nat): Place
    requires EncodableUnits(units) && k < |units|
  {
    var place := Places(units)[k].2;
    Place(|rows.Header()| + place.start, place.size)
  }

  /** Links are right: the table the loader reads gives each function's exact place in the output, its
      bytes there are its own instructions, and calls to it were relocated to that same place. */
  lemma LinkCorrect(units: seq<Unit>, rows: Rows, k: nat)
    requires WellLinked(units, rows) && k < |units|
    ensures Addressed(units[k].items, rows.Absolute())
    ensures var output, unit, place := Output(units, rows), units[k], Where(units, rows, k);
            && Has(rows.Loaded(), unit.entity, unit.func, place)
            && place.start + place.size <= |output|
            && output[place.start..][..place.size] == Linked(unit.items, rows.Absolute())
            && (unit.entity, unit.func) in rows.Absolute()
            && rows.Absolute()[(unit.entity, unit.func)] == place.start
  {
    hide Linked, PutTable, Gather, Places, AllItems, Has, Rows.Loaded, Rows.Absolute;
    PlaceHolds(units, k, rows.Absolute());
    var output, row, h := Output(units, rows), Places(units)[k], |rows.Header()|;
    assert output[h + row.2.start..] == Linked(AllItems(units), rows.Absolute())[row.2.start..];
    LinkEntry(units, rows, k);
  }

  lemma LinkEntry(units: seq<Unit>, rows: Rows, k: nat)
    requires WellLinked(units, rows) && k < |units|
    ensures var (ent, func, place) := Places(units)[k];
            && Has(rows.Loaded(), ent, func, Where(units, rows, k))
            && (ent, func) in rows.Absolute()
            && rows.Absolute()[(ent, func)] == |rows.Header()| + place.start
  {
    hide Linked, PutTable, Gather, Output, Addressed, Places, AllItems, Has, Rows.Loaded, Rows.Absolute, Rows.Header;
    var row := Places(units)[k];
    GatherHas(Places(units), row.0, row.1, row.2);
    RowEntry(rows, |Output(units, rows)|, row);
  }

  lemma RowEntry(rows: Rows, length: nat, row: (nat, nat, Place))
    requires rows.Fits(length) && DistinctKeys(rows.functions) && row in rows.functions
    ensures Has(rows.Loaded(), row.0, row.1, Place(|rows.Header()| + row.2.start, row.2.size))
    ensures (row.0, row.1) in rows.Absolute() && rows.Absolute()[(row.0, row.1)] == |rows.Header()| + row.2.start
  {
    hide PutTable, Gather, Tables.Absolute;
    LoadedHas(rows, length, row.0, row.1, Place(|rows.Header()| + row.2.start, row.2.size));
    FunctionTableReads(rows.functions, |rows.functions|, |rows.Named()|, []);
    var i: nat :| i < |rows.functions| && rows.functions[i] == row;
    AbsoluteHas(rows.functions, |rows.functions|, |rows.Named()|, i);
  }

  /** Conversely the table holds nothing else. */
  lemma LoadedOnly(units: seq<Unit>, rows: Rows, ent: nat, func: nat, place: Place)
    requires WellLinked(units, rows) && Has(rows.Loaded(), ent, func, place)
    ensures exists k: nat :: k < |units| && units[k].entity == ent && units[k].func == func && Where(units, rows, k) == place
  {
    hide PutTable, Gather, Has, Rows.Loaded, Rows.Header, Output, Raw, AllItems, Addressed;
    var h := |rows.Header()|;
    LoadedHas(rows, |Output(units, rows)|, ent, func, place);
    var row := (ent, func, Place(place.start - h, place.size));
    GatherHas(Places(units), ent, func, row.2);
    var k: nat :| k < |units| && Places(units)[k] == row;
    PlacesKeys(units);
    assert Where(units, rows, k) == place;
  }

  /** The disassembler, started on a function, reads exactly its instructions, each call with the
      callee's place as target, and ends exactly at the function's end. */
  lemma SweepsFunction(units: seq<Unit>, rows: Rows, k: nat)
    requires WellLinked(units, rows) && k < |units|
    requires Addressed(units[k].items, rows.Absolute()) && Clean(LinkedOps(units[k].items, rows.Absolute()))
    ensures var place, ops := Where(units, rows, k), LinkedOps(units[k].items, rows.Absolute());
            Sweep(place.start, place.start + place.size, Output(units, rows)) == Some((place.start + place.size, ops))
  {
    hide Output, LinkedOps, Where, Clean, Addressed, Sweep, EncodeAll;
    LinkCorrect(units, rows, k);
    var place := Where(units, rows, k);
    SweepInside(Output(units, rows), place.start, place.size, LinkedOps(units[k].items, rows.Absolute()));
  }
}
