/** The three header tables: how the compiler writes them (src/codegen.rs:191-284) and
    how the loaders read them (src/pbin.rs:8-95). */
module Tables {
  import opened Bytes
  import opened Opcodes

  // ---- Rows one after another ----

  type Reader<!R> = seq<byte> -> Option<(nat, R)>

  /** A reader never claims more bytes than there are. */
  ghost predicate InBounds<R(!new)>(read: Reader<R>) {
    forall s :: read(s).Some? ==> read(s).value.0 <= |s|
  }

  function PutAll<R>(put: R -> seq<byte>, rows: seq<R>): seq<byte> {
    if rows == [] then [] else put(rows[0]) + PutAll(put, rows[1..])
  }

  type Reading<R> = Option<(nat, seq<R>)>

  function Before<R>(k: nat, row: R, later: Reading<R>): Reading<R> {
    match later
    case None => None
    case Some((m, rows)) => Some((k + m, [row] + rows))
  }

  /** The first n rows and the bytes they take. */
  function ReadAll<R(!new)>(read: Reader<R>, n: nat, s: seq<byte>): (r: Reading<R>)
    requires InBounds(read)
    ensures r.Some? ==> r.value.0 <= |s| && |r.value.1| == n
  {
    if n == 0 then Some((0, []))
    else
      match read(s)
      case None => None
      case Some((k, row)) => Before(k, row, ReadAll(read, n - 1, s[k..]))
  }

  /** One row more, behind those already read. */
  function OneMore<R(!new)>(read: Reader<R>, earlier: Reading<R>, s: seq<byte>): Reading<R>
    requires earlier.Some? ==> earlier.value.0 <= |s|
  {
    match earlier
    case None => None
    case Some((m, rows)) =>
      match read(s[m..])
      case None => None
      case Some((k, row)) => Some((m + k, rows + [row]))
  }

  lemma OneMoreBefore<R(!new)>(read: Reader<R>, k: nat, row: R, r: Reading<R>, s: seq<byte>)
    requires k <= |s| && (r.Some? ==> r.value.0 <= |s| - k)
    ensures OneMore(read, Before(k, row, r), s) == Before(k, row, OneMore(read, r, s[k..]))
  {
    if r.Some? {
      var (m, rows) := r.value;
      assert s[k..][m..] == s[k + m..];
      var next := read(s[k + m..]);
      if next.Some? {
        Assoc([row], rows, [next.value.1]);
      }
    }
  }

  lemma {:induction false} ReadAllSnoc<R(!new)>(read: Reader<R>, n: nat, s: seq<byte>)
    requires InBounds(read)
    ensures ReadAll(read, n + 1, s) == OneMore(read, ReadAll(read, n, s), s)
  {
    if n == 0 {
      assert s[0..] == s;
      if read(s).Some? {
        var row := read(s).value.1;
        assert [row] + [] == [] + [row];
        assert ReadAll(read, 0, s[read(s).value.0..]) == Some((0, []));
      }
    } else if read(s).Some? {
      hide Before, OneMore;
      var (k, row) := read(s).value;
      ReadAllSnoc(read, n - 1, s[k..]);
      OneMoreBefore(read, k, row, ReadAll(read, n - 1, s[k..]), s);
    }
  }

  lemma {:induction false} ReadAllStops<R(!new)>(read: Reader<R>, n: nat, more: nat, s: seq<byte>)
    requires InBounds(read) && ReadAll(read, n, s).None? && n <= more
    ensures ReadAll(read, more, s).None?
    decreases more
  {
    if n < more {
      ReadAllStops(read, n, more - 1, s);
      ReadAllSnoc(read, more - 1, s);
    }
  }

  /** How the loader sees the written rows. */
  function Shown<A, R>(seen: A -> R, rows: seq<A>): seq<R> {
    seq(|rows|, i requires 0 <= i < |rows| => seen(rows[i]))
  }

  lemma ShownCons<A, R>(seen: A -> R, rows: seq<A>)
    ensures Shown(seen, rows) == if rows == [] then [] else [seen(rows[0])] + Shown(seen, rows[1..])
  {
  }

  /** Rows that each read back are read back in order, up to exactly their end. */
  lemma {:induction false} ReadAllPut<A, R(!new)>(read: Reader<R>, put: A -> seq<byte>, seen: A -> R, rows: seq<A>, post: seq<byte>)
    requires InBounds(read)
    requires forall i, rest :: 0 <= i < |rows| ==> read(put(rows[i]) + rest) == Some((|put(rows[i])|, seen(rows[i])))
    ensures ReadAll(read, |rows|, PutAll(put, rows) + post)
         == Some((|PutAll(put, rows)|, Shown(seen, rows)))
  {
    hide Shown;
    var s := PutAll(put, rows) + post;
    ShownCons(seen, rows);
    if rows != [] {
      var tail := rows[1..];
      Assoc(put(rows[0]), PutAll(put, tail), post);
      assert s[|put(rows[0])|..] == PutAll(put, tail) + post;
      ReadAllPut(read, put, seen, tail, post);
    }
  }

  lemma {:induction false} PutAllConcat<A>(put: A -> seq<byte>, a: seq<A>, b: seq<A>)
    ensures PutAll(put, a + b) == PutAll(put, a) + PutAll(put, b)
  {
    if a == [] {
      assert a + b == b;
    } else {
      PutAllConcat(put, a[1..], b);
      assert (a + b)[1..] == a[1..] + b;
      Assoc(put(a[0]), PutAll(put, a[1..]), PutAll(put, b));
    }
  }

  /** A table is a count in one byte, then rows. */
  function PutTable<A>(put: A -> seq<byte>, rows: seq<A>): seq<byte> {
    [|rows| % 256] + PutAll(put, rows)
  }

  function ReadTable<R(!new)>(read: Reader<R>, s: seq<byte>): (r: Option<(nat, seq<R>)>)
    requires InBounds(read)
    ensures r.Some? ==> 0 < r.value.0 <= |s|
  {
    if s == [] then None
    else
      match ReadAll(read, s[0], s[1..])
      case None => None
      case Some((m, rows)) => Some((m + 1, rows))
  }

  /** What a loader makes of a written table: as many rows as the count byte holds, and it stops behind them. */
  lemma TableReads<A, R(!new)>(read: Reader<R>, put: A -> seq<byte>, seen: A -> R, rows: seq<A>, post: seq<byte>)
    requires InBounds(read)
    requires forall i, rest :: 0 <= i < |rows| ==> read(put(rows[i]) + rest) == Some((|put(rows[i])|, seen(rows[i])))
    ensures var read_ := rows[..|rows| % 256];
            ReadTable(read, PutTable(put, rows) + post) == Some((1 + |PutAll(put, read_)|, Shown(seen, read_)))
  {
    hide Shown, ReadAll, PutAll;
    var n := |rows| % 256;
    var now, later := rows[..n], rows[n..];
    assert now + later == rows;
    PutAllConcat(put, now, later);
    Assoc(PutAll(put, now), PutAll(put, later), post);
    assert (PutTable(put, rows) + post)[1..] == PutAll(put, now) + (PutAll(put, later) + post);
    ReadAllPut(read, put, seen, now, PutAll(put, later) + post);
  }

  /** So the whole table is read, and reading ends where it ends, exactly below 256 rows. */
  lemma TableRoundTrip<A, R(!new)>(read: Reader<R>, put: A -> seq<byte>, seen: A -> R, rows: seq<A>, post: seq<byte>)
    requires InBounds(read)
    requires forall i, rest :: 0 <= i < |rows| ==> read(put(rows[i]) + rest) == Some((|put(rows[i])|, seen(rows[i])))
    ensures ReadTable(read, PutTable(put, rows) + post) == Some((|PutTable(put, rows)|, Shown(seen, rows))) <==> |rows| < 256
  {
    TableReads(read, put, seen, rows, post);
    if |rows| < 256 {
      assert rows[..|rows|] == rows;
    } else {
      assert |Shown(seen, rows[..|rows| % 256])| < |Shown(seen, rows)|;
    }
  }

  // ---- The maps the loaders fill ----

  type Table<K(==), V> = map<nat, map<K, V>>

  /** entry(ent).or_insert(empty), then insert(key, value). */
  function Insert<K(==), V>(table: Table<K, V>, ent: nat, key: K, value: V): Table<K, V> {
    table[ent := (if ent in table then table[ent] else map[])[key := value]]
  }

  function Gather<K(==), V>(rows: seq<(nat, K, V)>): Table<K, V> {
    if rows == [] then map[]
    else
      var (ent, key, value) := rows[|rows| - 1];
      Insert(Gather(rows[..|rows| - 1]), ent, key, value)
  }

  ghost predicate Has<K, V>(table: Table<K, V>, ent: nat, key: K, value: V) {
    ent in table && key in table[ent] && table[ent][key] == value
  }

  /** With no pair of entity and key twice, the map holds exactly the rows, whatever their order. */
  lemma {:induction false} GatherHas<K, V>(rows: seq<(nat, K, V)>, ent: nat, key: K, value: V)
    requires forall i, j :: 0 <= i < j < |rows| ==> (rows[i].0, rows[i].1) != (rows[j].0, rows[j].1)
    ensures Has(Gather(rows), ent, key, value) <==> (ent, key, value) in rows
  {
    if rows != [] {
      var before, last := rows[..|rows| - 1], rows[|rows| - 1];
      assert rows == before + [last];
      GatherHas(before, ent, key, value);
      if (last.0, last.1) == (ent, key) {
        assert (ent, key, value) !in before;
      }
    }
  }

  /** After z turns of a loader's loop: the cursor is behind the first z rows, and the map holds them. */
  ghost predicate Loaded<K(!new), V(!new)>(read: Reader<(nat, K, V)>, block: seq<byte>, location: nat,
                                           z: nat, at: nat, table: Table<K, V>)
    requires InBounds(read) && location < |block|
  {
    var r := ReadAll(read, z, block[location + 1..]);
    r.Some? && location + 1 + r.value.0 == at && table == Gather(r.value.1)
  }

  lemma LoadStart<K(!new), V(!new)>(read: Reader<(nat, K, V)>, block: seq<byte>, location: nat)
    requires InBounds(read) && location < |block|
    ensures Loaded(read, block, location, 0, location + 1, map[])
  {
  }

  lemma LoadRow<K(!new), V(!new)>(read: Reader<(nat, K, V)>, block: seq<byte>, location: nat,
                                  z: nat, at: nat, table: Table<K, V>)
    requires InBounds(read) && location < |block| && z < block[location] && Loaded(read, block, location, z, at, table)
    ensures at <= |block|
    ensures read(block[at..]).None? ==> ReadTable(read, block[location..]).None?
    ensures read(block[at..]).Some? ==>
              var (k, (ent, key, value)) := read(block[at..]).value;
              Loaded(read, block, location, z + 1, at + k, Insert(table, ent, key, value))
  {
    hide Insert;
    var s := block[location + 1..];
    var rows := ReadAll(read, z, s).value.1;
    ReadAllSnoc(read, z, s);
    assert s[at - location - 1..] == block[at..];
    if read(block[at..]).None? {
      ReadAllStops(read, z + 1, block[location], s);
      assert block[location..][1..] == s;
    } else {
      var row := read(block[at..]).value.1;
      assert (rows + [row])[..|rows|] == rows;
    }
  }

  lemma LoadEnd<K(!new), V(!new)>(read: Reader<(nat, K, V)>, block: seq<byte>, location: nat,
                                  size: nat, at: nat, table: Table<K, V>)
    requires InBounds(read) && location < |block| && size == block[location] as nat && Loaded(read, block, location, size, at, table)
    ensures var r := ReadTable(read, block[location..]);
            r.Some? && at == location + r.value.0 && table == Gather(r.value.1)
  {
    assert block[location..][1..] == block[location + 1..];
  }

  // ---- The data and inoculation tables ----

  // The value column of both tables is always written as the number 4 (src/codegen.rs:215,244).
  function PutNamed(row: (nat, Text)): seq<byte> {
    [row.0 % 256] + PutText(row.1) + EncodeValue(Hu8(4))
  }

  function ReadNamed(s: seq<byte>): (r: Option<(nat, (nat, Text, Hvalue))>)
    ensures r.Some? ==> r.value.0 <= |s|
  {
    if s == [] then None
    else
      match ReadText(s[1..])
      case None => None
      case Some((n, name)) =>
        match DecodeValue(s[1 + n..])
        case None => None
        case Some((m, value)) => Some((1 + n + m, (s[0] as nat, name, value)))
  }

  lemma NamedInBounds()
    ensures InBounds(ReadNamed)
  {
  }

  function SeenNamed(row: (nat, Text)): (nat, Text, Hvalue) {
    (row.0 % 256, row.1, Hu8(4))
  }

  lemma NamedRow(row: (nat, Text), rest: seq<byte>)
    requires NulFree(row.1)
    ensures ReadNamed(PutNamed(row) + rest) == Some((|PutNamed(row)|, SeenNamed(row)))
  {
    var s := PutNamed(row) + rest;
    assert s[1..] == PutText(row.1) + (EncodeValue(Hu8(4)) + rest);
    ReadPutText(row.1, EncodeValue(Hu8(4)) + rest);
    assert s[2 + |row.1|..] == EncodeValue(Hu8(4)) + rest;
    DecodeEncodeValue(Hu8(4), rest);
  }

  /** The bytes of a row: the entity, the name with its NUL, and the number 4 as a value. */
  lemma NamedRowWritten(row: (nat, Text))
    ensures PutNamed(row) == [row.0 % 256] + row.1 + [0, 1, 4]
  {
    ValueWritten(Hu8(4));
  }

  /** build_entity_data_table and build_entity_inoculation_table, which are the same code.
      rows are the keys of the two nested hash maps in whatever order they are met. */
  method BuildNamedTable(header: seq<byte>, rows: seq<(nat, Text)>) returns (header': seq<byte>)
    ensures header' == header + PutTable(PutNamed, rows)
  {
    var size := |rows|;
    var edt: seq<byte> := [size % 256];
    for i := 0 to |rows|
      invariant edt == [size % 256] + PutAll(PutNamed, rows[..i])
    {
      PutAllConcat(PutNamed, rows[..i], [rows[i]]);
      assert rows[..i] + [rows[i]] == rows[..i + 1];
      edt := edt + [rows[i].0 % 256];
      edt := edt + rows[i].1;
      edt := edt + [0];
      edt := edt + EncodeValue(Hu8(4));
    }
    assert rows[..|rows|] == rows;
    header' := header + edt;
  }

  /** load_entity_data_table and load_entity_inoculation_table; the cursor moves past what was read. */
  method LoadNamedTable(location: nat, vblock: seq<byte>)
    returns (location': nat, table: Table<Text, Hvalue>, panicked: bool)
    requires location <= |vblock|
    ensures var r := ReadTable(ReadNamed, vblock[location..]);
            if panicked then r.None?
            else r.Some? && location' == location + r.value.0 && table == Gather(r.value.1)
  {
    NamedInBounds();
    hide ReadAll, Loaded, Gather, Insert, ReadNamed, InBounds;
    location', table, panicked := location, map[], true;
    if location == |vblock| {
      return;
    }
    hide ReadTable;
    var size := vblock[location];
    location' := location + 1;
    LoadStart(ReadNamed, vblock, location);
    var z: nat := 0;
    while z < size
      invariant z <= size && Loaded(ReadNamed, vblock, location, z, location', table)
    {
      LoadRow(ReadNamed, vblock, location, z, location', table);
      var row := ReadNamed(vblock[location'..]);
      if row.None? {
        return;
      }
      var (k, (ent, name, value)) := row.value;
      location', table := location' + k, Insert(table, ent, name, value);
      z := z + 1;
    }
    LoadEnd(ReadNamed, vblock, location, z, location', table);
    panicked := false;
  }

  // ---- The function table ----

  // Where a function starts in the code, and its size.
  datatype Place = Place(start: nat, size: nat)

  /** loc is the final start: behind the whole header, cut to 16 bits. */
  function FinalStart(start: nat, count: nat, headerLength: nat): nat {
    (start + 1 + count * 6 + headerLength) % U16
  }

  function PutFunction(count: nat, headerLength: nat): ((nat, nat, Place)) -> seq<byte> {
    (row: (nat, nat, Place)) =>
      [row.0 % 256] + [row.1 % 256] + PutU16(FinalStart(row.2.start, count, headerLength)) + PutU16(row.2.size % U16)
  }

  function ReadFunction(s: seq<byte>): (r: Option<(nat, (nat, nat, Place))>)
    ensures r.Some? ==> r.value.0 <= |s|
  {
    if |s| < 2 then None
    else
      match (ReadU16(s[2..]), if |s| < 4 then None else ReadU16(s[4..]))
      case (Some(start), Some(size)) => Some((6, (s[0] as nat, s[1] as nat, Place(start, size))))
      case _ => None
  }

  lemma FunctionInBounds()
    ensures InBounds(ReadFunction)
  {
  }

  function SeenFunction(count: nat, headerLength: nat): ((nat, nat, Place)) -> (nat, nat, Place) {
    (row: (nat, nat, Place)) =>
      (row.0 % 256, row.1 % 256, Place(FinalStart(row.2.start, count, headerLength), row.2.size % U16))
  }

  lemma FunctionRow(count: nat, headerLength: nat, row: (nat, nat, Place), rest: seq<byte>)
    ensures |PutFunction(count, headerLength)(row)| == 6
    ensures ReadFunction(PutFunction(count, headerLength)(row) + rest)
         == Some((6, SeenFunction(count, headerLength)(row)))
  {
    var start, size := PutU16(FinalStart(row.2.start, count, headerLength)), PutU16(row.2.size % U16);
    var s := PutFunction(count, headerLength)(row) + rest;
    assert s[2..] == start + (size + rest) && s[4..] == size + rest;
    ReadPutU16(FinalStart(row.2.start, count, headerLength), size + rest);
    ReadPutU16(row.2.size % U16, rest);
  }

  /** The bytes of a row: entity, function, start and size, these in two bytes each, most significant first. */
  lemma FunctionRowWritten(count: nat, headerLength: nat, row: (nat, nat, Place))
    ensures var s := PutFunction(count, headerLength)(row);
            && |s| == 6 && s[0] as int == row.0 % 256 && s[1] as int == row.1 % 256
            && Spelt(s[2..4]) == (headerLength + 1 + 6 * count + row.2.start) % U16 && Spelt(s[4..6]) == row.2.size % U16
  {
    var s := PutFunction(count, headerLength)(row);
    hide PutU16, Spelt;
    PutSpells(FinalStart(row.2.start, count, headerLength));
    PutSpells(row.2.size % U16);
    assert s[2..4] == PutU16(FinalStart(row.2.start, count, headerLength)) && s[4..6] == PutU16(row.2.size % U16);
  }

  lemma {:induction false} FunctionRowsLength(count: nat, headerLength: nat, rows: seq<(nat, nat, Place)>)
    ensures |PutAll(PutFunction(count, headerLength), rows)| == 6 * |rows|
  {
    if rows != [] {
      FunctionRow(count, headerLength, rows[0], []);
      FunctionRowsLength(count, headerLength, rows[1..]);
    }
  }

  /** What relocation will look up: the final start of each function. */
  function Absolute(rows: seq<(nat, nat, Place)>, count: nat, headerLength: nat): map<(nat, nat), nat> {
    if rows == [] then map[]
    else
      var (ent, func, place) := rows[|rows| - 1];
      Absolute(rows[..|rows| - 1], count, headerLength)[(ent, func) := FinalStart(place.start, count, headerLength)]
  }

  /** build_entity_function_location_table. */
  method BuildFunctionTable(header: seq<byte>, rows: seq<(nat, nat, Place)>)
    returns (header': seq<byte>, absolute: map<(nat, nat), nat>)
    ensures header' == header + PutTable(PutFunction(|rows|, |header|), rows)
    ensures absolute == Absolute(rows, |rows|, |header|)
  {
    var offset, size := |header|, |rows|;
    ghost var put := PutFunction(size, offset);
    var efl: seq<byte> := [size % 256];
    absolute := map[];
    for i := 0 to |rows|
      invariant efl == [size % 256] + PutAll(put, rows[..i])
      invariant absolute == Absolute(rows[..i], size, offset)
    {
      PutAllConcat(put, rows[..i], [rows[i]]);
      assert rows[..i] + [rows[i]] == rows[..i + 1];
      assert rows[..i + 1][..i] == rows[..i];
      var (ent, func, place) := rows[i];
      efl := efl + [ent % 256] + [func % 256];
      var final := (place.start + 1 + size * 6 + offset) % U16;
      absolute := absolute[(ent, func) := final];
      efl := efl + PutU16(final) + PutU16(place.size % U16);
    }
    assert rows[..|rows|] == rows;
    header' := header + efl;
  }

  /** load_entity_function_table. */
  method LoadFunctionTable(location: nat, vblock: seq<byte>)
    returns (location': nat, table: Table<nat, Place>, panicked: bool)
    requires location <= |vblock|
    ensures var r := ReadTable(ReadFunction, vblock[location..]);
            if panicked then r.None?
            else r.Some? && location' == location + r.value.0 && table == Gather(r.value.1)
  {
    FunctionInBounds();
    hide ReadAll, Loaded, Gather, Insert, ReadFunction, InBounds;
    location', table, panicked := location, map[], true;
    if location == |vblock| {
      return;
    }
    hide ReadTable;
    var size := vblock[location];
    location' := location + 1;
    LoadStart(ReadFunction, vblock, location);
    var z: nat := 0;
    while z < size
      invariant z <= size && Loaded(ReadFunction, vblock, location, z, location', table)
    {
      LoadRow(ReadFunction, vblock, location, z, location', table);
      var row := ReadFunction(vblock[location'..]);
      if row.None? {
        return;
      }
      var (k, (ent, func, place)) := row.value;
      location', table := location' + k, Insert(table, ent, func, place);
      z := z + 1;
    }
    LoadEnd(ReadFunction, vblock, location, z, location', table);
    panicked := false;
  }
}
