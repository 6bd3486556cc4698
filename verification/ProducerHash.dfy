/** The hash from threads to their implicit producers (archive/other_src/concurrentqueue.h:3393-3538):
    tables that double, searched newest first, with lazy copying into the newest. Every atomic
    operation is one step; thread ids stand for threads. No thread exits and no allocation fails. */
module ProducerHash {
  import opened Bytes
  import opened Tally

  // One table: the keys decide, the values are written behind them. Its prev is the table before it.
  datatype Table = Table(keys: seq<Option<nat>>, values: seq<nat>)
  {
    function Capacity(): nat { |keys| }
  }

  datatype PC =
    | Idle
    | Probe(main: nat, h: nat, e: nat)              // load the key e places after the hash, in table h
    | Counting(main: nat)                           // fetch_add of the count
    | Check(main: nat)                              // half full? then test_and_set of the resize lock
    | Locked                                        //   load the newest table
    | Grow(main: nat)                               //   publish a bigger one
    | Unlock(main: nat)                             //   clear the lock
    | Decide(main: nat)                             // room in this table? else load the newest again
    | Insert(main: nat, e: nat, producer: nat)      // CAS the key from empty
    | Inserted(main: nat, i: nat, producer: nat)    //   write the value
    | Copy(main: nat, e: nat, producer: nat)        // found in an older table: CAS into the newest
    | Copied(main: nat, i: nat, producer: nat)      //   write the value
    | Done(producer: nat)

  // counts[t] is the count that thread t drew, 0 before. producers, the registered producer of each
  // thread, and made, how many were created, are written alongside and decide nothing.
  datatype State = State(tables: seq<Table>, locked: bool, counter: nat, pcs: seq<PC>,
                         hashes: seq<nat>, counts: seq<nat>, producers: seq<Option<nat>>, made: nat)
  {
    function To(t: nat, p: PC): State
      requires t < |pcs|
    {
      this.(pcs := pcs[t := p])
    }
  }

  const INITIAL_SIZE: nat := 32

  /** index & (capacity - 1), e places after the hash; capacities are powers of two. */
  function Place(hash: nat, e: nat, capacity: nat): (i: nat)
    requires capacity > 0
    ensures i < capacity
  {
    (hash + e) % capacity
  }

  function Limit(capacity: nat): nat {
    capacity / 2 + capacity / 4
  }

  /** Doubling until the count is below half. */
  function Bigger(capacity: nat, count: nat): (c: nat)
    requires capacity > 0
    ensures c >= capacity && count < c / 2
    decreases if count >= capacity / 2 then 2 * count + 2 - capacity else 0
  {
    if count >= capacity / 2 then Bigger(2 * capacity, count) else capacity
  }

  function Fresh(capacity: nat): Table {
    Table(seq(capacity, _ => None), seq(capacity, _ => 0))
  }

  function SetKey(s: State, h: nat, i: nat, t: nat): State
    requires h < |s.tables| && i < |s.tables[h].keys|
  {
    s.(tables := s.tables[h := s.tables[h].(keys := s.tables[h].keys[i := Some(t)])])
  }

  function SetValue(s: State, h: nat, i: nat, v: nat): State
    requires h < |s.tables| && i < |s.tables[h].values|
  {
    s.(tables := s.tables[h := s.tables[h].(values := s.tables[h].values[i := v])])
  }

  ghost predicate Shaped(s: State) {
    && |s.pcs| == |s.hashes| == |s.counts| == |s.producers| && s.tables != []
    && (forall h :: 0 <= h < |s.tables| ==> |s.tables[h].keys| == |s.tables[h].values| && s.tables[h].keys != [])
    && (forall g, h :: 0 <= g < h < |s.tables| ==> |s.tables[g].keys| <= |s.tables[h].keys|)
    && (forall t :: 0 <= t < |s.pcs| ==> PCInRange(s, s.pcs[t]))
  }

  ghost predicate PCInRange(s: State, p: PC) {
    match p
    case Probe(main, h, _) => h <= main < |s.tables|
    case Counting(main) => main < |s.tables|
    case Check(main) => main < |s.tables|
    case Grow(main) => main < |s.tables|
    case Unlock(main) => main < |s.tables|
    case Decide(main) => main < |s.tables|
    case Insert(main, _, _) => main < |s.tables|
    case Inserted(main, i, _) => main < |s.tables| && i < |s.tables[main].values| && i < |s.tables[main].keys|
    case Copy(main, _, _) => main < |s.tables|
    case Copied(main, i, _) => main < |s.tables| && i < |s.tables[main].values| && i < |s.tables[main].keys|
    case _ => true
  }

  /** Looking the thread up. */
  ghost function SearchStep(s: State, t: nat): State
    requires Shaped(s) && t < |s.pcs| && (s.pcs[t].Idle? || s.pcs[t].Probe?)
  {
    match s.pcs[t]
    case Idle => s.To(t, Probe(|s.tables| - 1, |s.tables| - 1, 0))
    case Probe(main, h, e) =>
      assert PCInRange(s, s.pcs[t]);
      var table := s.tables[h];
      var i := Place(s.hashes[t], e, |table.keys|);
      if table.keys[i] == Some(t) then
        if h != main then s.To(t, Copy(main, 0, table.values[i])) else s.To(t, Done(table.values[i]))
      else if table.keys[i] == None then
        if h > 0 then s.To(t, Probe(main, h - 1, 0)) else s.To(t, Counting(main))
      else s.To(t, Probe(main, h, e + 1))
  }

  predicate InResize(p: PC) {
    p.Counting? || p.Check? || p.Locked? || p.Grow? || p.Unlock? || p.Decide?
  }

  /** Drawing a count, and finding or making a table with room for it. */
  ghost function ResizeStep(s: State, t: nat): State
    requires Shaped(s) && t < |s.pcs| && InResize(s.pcs[t])
  {
    assert PCInRange(s, s.pcs[t]);
    match s.pcs[t]
    case Counting(main) =>
      s.(counter := s.counter + 1, counts := s.counts[t := s.counter + 1]).To(t, Check(main))
    case Check(main) =>
      if s.counts[t] >= s.tables[main].Capacity() / 2 && !s.locked then s.(locked := true).To(t, Locked)
      else s.To(t, Decide(main))
    case Locked =>
      var main := |s.tables| - 1;
      if s.counts[t] >= s.tables[main].Capacity() / 2 then s.To(t, Grow(main)) else s.To(t, Unlock(main))
    case Grow(main) =>
      s.(tables := s.tables + [Fresh(Bigger(2 * s.tables[main].Capacity(), s.counts[t]))]).To(t, Unlock(|s.tables|))
    case Unlock(main) => s.(locked := false).To(t, Decide(main))
    case Decide(main) =>
      if s.counts[t] < Limit(s.tables[main].Capacity()) then s.(made := s.made + 1).To(t, Insert(main, 0, s.made))
      else s.To(t, Check(|s.tables| - 1))
  }

  /** Putting the thread into a table. */
  ghost function StoreStep(s: State, t: nat): State
    requires Shaped(s) && t < |s.pcs| && !s.pcs[t].Idle? && !s.pcs[t].Probe? && !InResize(s.pcs[t])
  {
    assert PCInRange(s, s.pcs[t]);
    match s.pcs[t]
    case Insert(main, e, p) =>
      var i := Place(s.hashes[t], e, |s.tables[main].keys|);
      if s.tables[main].keys[i] == None then SetKey(s, main, i, t).To(t, Inserted(main, i, p))
      else s.To(t, Insert(main, e + 1, p))
    case Inserted(main, i, p) =>
      SetValue(s, main, i, p).(producers := s.producers[t := Some(p)]).To(t, Done(p))
    case Copy(main, e, p) =>
      var i := Place(s.hashes[t], e, |s.tables[main].keys|);
      if s.tables[main].keys[i] == None then SetKey(s, main, i, t).To(t, Copied(main, i, p))
      else s.To(t, Copy(main, e + 1, p))
    case Copied(main, i, p) => SetValue(s, main, i, p).To(t, Done(p))
    case Done(_) => s.To(t, Idle)
  }

  ghost function Step(s: State, t: nat): State
    requires Shaped(s) && t < |s.pcs|
  {
    if s.pcs[t].Idle? || s.pcs[t].Probe? then SearchStep(s, t)
    else if InResize(s.pcs[t]) then ResizeStep(s, t)
    else StoreStep(s, t)
  }

  // ---- The invariant ----

  ghost predicate In(table: Table, t: nat) {
    exists i :: 0 <= i < |table.keys| && table.keys[i] == Some(t)
  }

  /** The e places from the hash on are taken, by other threads. */
  ghost predicate Passed(table: Table, hash: nat, e: nat, t: nat) {
    table.keys != [] && forall d :: 0 <= d < e ==> TakenByOther(table, Place(hash, d, |table.keys|), t)
  }

  predicate TakenByOther(table: Table, i: nat, t: nat)
    requires i < |table.keys|
  {
    table.keys[i].Some? && table.keys[i] != Some(t)
  }

  /** A key is where probing finds it, is there once, and belongs to a thread whose count is below
      three quarters of the capacity. */
  ghost predicate KeyInv(s: State, table: Table, i: nat)
    requires i < |table.keys| && |s.counts| == |s.hashes|
  {
    table.keys[i].Some? ==>
      var t := table.keys[i].value;
      && t < |s.counts| && 0 < s.counts[t] < Limit(|table.keys|)
      && (forall j :: 0 <= j < |table.keys| && table.keys[j] == Some(t) ==> j == i)
      && exists e: nat :: Place(s.hashes[t], e, |table.keys|) == i && Passed(table, s.hashes[t], e, t)
  }

  ghost predicate TableInv(s: State, h: nat)
    requires h < |s.tables| && |s.counts| == |s.hashes|
  {
    forall i :: 0 <= i < |s.tables[h].keys| ==> KeyInv(s, s.tables[h], i)
  }

  /** The thread's slots hold its producer, except for one whose value it is about to write. */
  ghost predicate ValuesInv(s: State, t: nat)
    requires Shaped(s) && t < |s.pcs|
  {
    forall h, i :: 0 <= h < |s.tables| && 0 <= i < |s.tables[h].keys| && s.tables[h].keys[i] == Some(t) ==>
      Some(s.tables[h].values[i]) == s.producers[t] || Writing(s.pcs[t], h, i)
  }

  predicate Writing(p: PC, h: nat, i: nat) {
    (p.Inserted? || p.Copied?) && p.main == h && p.i == i
  }

  ghost predicate Nowhere(s: State, t: nat) {
    forall h :: 0 <= h < |s.tables| ==> !In(s.tables[h], t)
  }

  /** In one of the tables up to h. */
  ghost predicate Somewhere(s: State, h: nat, t: nat) {
    exists g :: 0 <= g <= h && g < |s.tables| && In(s.tables[g], t)
  }

  ghost predicate ThreadInv(s: State, t: nat)
    requires Shaped(s) && t < |s.pcs|
  {
    var p := s.pcs[t];
    && s.counts[t] <= s.counter
    && (s.producers[t].Some? ==> s.counts[t] > 0 && Somewhere(s, |s.tables| - 1, t))
    && ValuesInv(s, t)
    && match p
       case Probe(main, h, e) =>
         && (s.producers[t].None? ==> Nowhere(s, t) && s.counts[t] == 0)
         && (s.producers[t].Some? ==> Somewhere(s, h, t))
         && !(exists g :: h < g <= main && In(s.tables[g], t))
         && Passed(s.tables[h], s.hashes[t], e, t)
       case Counting(_) => s.producers[t].None? && Nowhere(s, t) && s.counts[t] == 0
       case Insert(main, e, p) =>
         s.producers[t].None? && Nowhere(s, t) && 0 < s.counts[t] < Limit(s.tables[main].Capacity())
         && Passed(s.tables[main], s.hashes[t], e, t)
       case Inserted(main, i, _) => s.producers[t].None? && s.tables[main].keys[i] == Some(t) && s.counts[t] > 0
       case Copy(main, e, p) =>
         && s.producers[t] == Some(p) && !In(s.tables[main], t) && s.counts[t] < Limit(s.tables[main].Capacity())
         && Passed(s.tables[main], s.hashes[t], e, t)
       case Copied(main, i, p) => s.producers[t] == Some(p) && s.tables[main].keys[i] == Some(t)
       case Done(p) => s.producers[t] == Some(p)
       case Idle => s.producers[t].None? ==> Nowhere(s, t) && s.counts[t] == 0
       case Grow(main) =>
         s.producers[t].None? && Nowhere(s, t) && 0 < s.counts[t] && s.counts[t] >= s.tables[main].Capacity() / 2
       case _ => s.producers[t].None? && Nowhere(s, t) && s.counts[t] > 0
  }

  predicate InLock(p: PC) {
    p.Locked? || p.Grow? || p.Unlock?
  }

  /** One thread at a time resizes, and it builds on the newest table. */
  ghost predicate LockInv(s: State) {
    && (forall t :: 0 <= t < |s.pcs| && InLock(s.pcs[t]) ==> s.locked)
    && (forall t, u :: 0 <= t < u < |s.pcs| && InLock(s.pcs[t]) ==> !InLock(s.pcs[u]))
    && (forall t :: 0 <= t < |s.pcs| && s.pcs[t].Grow? ==> s.pcs[t].main == |s.tables| - 1)
  }

  ghost predicate CountsDistinct(s: State) {
    forall t, u :: 0 <= t < u < |s.counts| && s.counts[t] > 0 ==> s.counts[t] != s.counts[u]
  }

  ghost predicate Inv(s: State) {
    && Shaped(s) && LockInv(s) && CountsDistinct(s)
    && (forall h :: 0 <= h < |s.tables| ==> TableInv(s, h))
    && (forall t :: 0 <= t < |s.pcs| ==> ThreadInv(s, t))
  }

  ghost predicate Init(s: State) {
    && s.tables == [Fresh(INITIAL_SIZE)] && !s.locked && s.counter == 0
    && |s.pcs| == |s.hashes| == |s.counts| == |s.producers|
    && (forall t :: 0 <= t < |s.pcs| ==> s.pcs[t] == Idle && s.counts[t] == 0 && s.producers[t] == None)
  }

  // ---- There is always room ----

  lemma PlaceReaches(hash: nat, i: nat, capacity: nat) returns (e: nat)
    requires i < capacity
    ensures e < capacity && Place(hash, e, capacity) == i
  {
    var r := hash % capacity;
    e := if i >= r then i - r else i + capacity - r;
    var q := hash / capacity;
    assert hash == q * capacity + r;
    if i >= r {
      ModIs(q, i, capacity);
    } else {
      assert hash + e == (q + 1) * capacity + i;
      ModIs(q + 1, i, capacity);
    }
  }

  lemma ModIs(q: nat, i: nat, capacity: nat)
    requires i < capacity
    ensures (q * capacity + i) % capacity == i
  {
    var x := q * capacity + i;
    var d := x / capacity - q;
    assert x == (x / capacity) * capacity + x % capacity;
    assert d * capacity == i - x % capacity;
    if d != 0 {
      assert d >= 1 || d <= -1;
    }
  }

  /** The threads in a table have different counts below three quarters of its capacity: some slot is free. */
  lemma FreeSlot(s: State, table: Table) returns (i: nat)
    requires |s.counts| == |s.hashes| && table.keys != [] && CountsDistinct(s)
    requires forall i :: 0 <= i < |table.keys| ==> KeyInv(s, table, i)
    ensures i < |table.keys| && table.keys[i] == None
  {
    var n := |table.keys|;
    if forall i :: 0 <= i < n ==> table.keys[i].Some? {
      forall i | 0 <= i < n
        ensures table.keys[i].value < |s.counts| && 0 < s.counts[table.keys[i].value] < Limit(n)
      {
        assert KeyInv(s, table, i);
      }
      var xs := seq(n, i requires 0 <= i < n => s.counts[table.keys[i].value]);
      forall i, j | 0 <= i < j < n
        ensures xs[i] != xs[j]
      {
        assert KeyInv(s, table, i) && KeyInv(s, table, j);
      }
      DistinctBelow(xs, Limit(n));
    }
    i :| 0 <= i < n && table.keys[i] == None;
  }

  /** No probe goes once around a table. */
  lemma ProbeStops(s: State, table: Table, hash: nat, e: nat, t: nat)
    requires |s.counts| == |s.hashes| && table.keys != [] && CountsDistinct(s)
    requires forall i :: 0 <= i < |table.keys| ==> KeyInv(s, table, i)
    requires Passed(table, hash, e, t)
    ensures e < |table.keys|
  {
    var i := FreeSlot(s, table);
    var d := PlaceReaches(hash, i, |table.keys|);
    PassedBelow(table, hash, e, d, t);
  }

  lemma PassedBelow(table: Table, hash: nat, e: nat, d: nat, t: nat)
    requires table.keys != []
    ensures Passed(table, hash, e, t) && table.keys[Place(hash, d, |table.keys|)] == None ==> e <= d
  {
  }

  // ---- One thread's step, seen by the others ----

  /** From s to s', tables are only added and slots only filled, all by thread t. */
  ghost predicate Extends(s: State, s': State, t: nat) {
    && |s.tables| <= |s'.tables| && s'.hashes == s.hashes
    && (forall h :: 0 <= h < |s.tables| ==> TableExtends(s.tables[h], s'.tables[h], t))
    && (forall h, i :: |s.tables| <= h < |s'.tables| && 0 <= i < |s'.tables[h].keys| ==> s'.tables[h].keys[i] == None)
    && |s'.counts| == |s.counts| && |s'.producers| == |s.producers| && |s'.pcs| == |s.pcs|
    && (forall u :: 0 <= u < |s.counts| && u != t ==> s'.counts[u] == s.counts[u])
    && (forall u :: 0 <= u < |s.producers| && u != t ==> s'.producers[u] == s.producers[u])
    && (forall u :: 0 <= u < |s.pcs| && u != t ==> s'.pcs[u] == s.pcs[u])
    && s'.counter >= s.counter
  }

  ghost predicate TableExtends(a: Table, b: Table, t: nat) {
    && |b.keys| == |a.keys| && |b.values| == |a.values|
    && (forall i :: 0 <= i < |a.keys| && b.keys[i] != a.keys[i] ==> a.keys[i] == None && b.keys[i] == Some(t))
    && (forall i :: 0 <= i < |a.values| && i < |b.keys| && b.values[i] != a.values[i] ==> b.keys[i] == Some(t))
  }

  lemma InExtends(a: Table, b: Table, t: nat, u: nat)
    requires TableExtends(a, b, t) && u != t
    ensures In(b, u) <==> In(a, u)
  {
    if In(a, u) {
      var i :| 0 <= i < |a.keys| && a.keys[i] == Some(u);
      assert b.keys[i] == Some(u);
    }
    if In(b, u) {
      var i :| 0 <= i < |b.keys| && b.keys[i] == Some(u);
      assert a.keys[i] == Some(u);
    }
  }

  lemma PassedExtends(a: Table, b: Table, t: nat, u: nat, hash: nat, e: nat)
    requires TableExtends(a, b, t) && u != t && Passed(a, hash, e, u)
    ensures Passed(b, hash, e, u)
  {
    forall d | 0 <= d < e
      ensures TakenByOther(b, Place(hash, d, |b.keys|), u)
    {
      assert TakenByOther(a, Place(hash, d, |a.keys|), u);
    }
  }

  lemma TablesExtend(s: State, s': State, t: nat, u: nat)
    requires Extends(s, s', t) && u != t
    ensures forall h :: 0 <= h < |s.tables| ==> (In(s'.tables[h], u) <==> In(s.tables[h], u))
    ensures forall h :: |s.tables| <= h < |s'.tables| ==> !In(s'.tables[h], u)
  {
    forall h | 0 <= h < |s.tables|
      ensures In(s'.tables[h], u) <==> In(s.tables[h], u)
    {
      InExtends(s.tables[h], s'.tables[h], t, u);
    }
  }

  lemma OthersKeep(s: State, s': State, t: nat, u: nat)
    requires Shaped(s) && Shaped(s') && Extends(s, s', t) && u < |s.pcs| && u != t && ThreadInv(s, u)
    ensures ThreadInv(s', u)
  {
    TablesExtend(s, s', t, u);
    var p := s.pcs[u];
    assert PCInRange(s, p) && PCInRange(s', s'.pcs[u]);
    OthersValues(s, s', t, u);
    OthersPlace(s, s', t, u);
    if s.producers[u].Some? {
      SomewhereExtends(s, s', t, u, |s.tables| - 1);
      if p.Probe? {
        SomewhereExtends(s, s', t, u, p.h);
      }
    }
  }

  /** What the others have found or put in is still there. */
  lemma OthersPlace(s: State, s': State, t: nat, u: nat)
    requires Shaped(s) && Shaped(s') && Extends(s, s', t) && u < |s.pcs| && u != t && ThreadInv(s, u)
    requires PCInRange(s, s.pcs[u])
    ensures match s.pcs[u]
            case Probe(_, h, e) => h < |s'.tables| && Passed(s'.tables[h], s.hashes[u], e, u)
            case Insert(main, e, _) =>
              main < |s'.tables| && |s'.tables[main].keys| == |s.tables[main].keys|
              && Passed(s'.tables[main], s.hashes[u], e, u)
            case Copy(main, e, _) =>
              main < |s'.tables| && |s'.tables[main].keys| == |s.tables[main].keys|
              && Passed(s'.tables[main], s.hashes[u], e, u)
            case Inserted(main, i, _) =>
              main < |s'.tables| && i < |s'.tables[main].keys| && s'.tables[main].keys[i] == Some(u)
            case Copied(main, i, _) =>
              main < |s'.tables| && i < |s'.tables[main].keys| && s'.tables[main].keys[i] == Some(u)
            case _ => true
  {
    match s.pcs[u]
    case Probe(main, h, e) => PassedExtends(s.tables[h], s'.tables[h], t, u, s.hashes[u], e);
    case Insert(main, e, _) => PassedExtends(s.tables[main], s'.tables[main], t, u, s.hashes[u], e);
    case Copy(main, e, _) => PassedExtends(s.tables[main], s'.tables[main], t, u, s.hashes[u], e);
    case Inserted(main, i, _) => assert s'.tables[main].keys[i] == s.tables[main].keys[i];
    case Copied(main, i, _) => assert s'.tables[main].keys[i] == s.tables[main].keys[i];
    case _ =>
  }

  lemma SomewhereExtends(s: State, s': State, t: nat, u: nat, h: nat)
    requires Extends(s, s', t) && u != t && Somewhere(s, h, u)
    ensures Somewhere(s', h, u) && Somewhere(s', |s'.tables| - 1, u)
  {
    var g :| 0 <= g <= h && g < |s.tables| && In(s.tables[g], u);
    InExtends(s.tables[g], s'.tables[g], t, u);
  }

  lemma OthersValues(s: State, s': State, t: nat, u: nat)
    requires Shaped(s) && Shaped(s') && Extends(s, s', t) && u < |s.pcs| && u != t && ValuesInv(s, u)
    ensures ValuesInv(s', u)
  {
    forall h, i | 0 <= h < |s'.tables| && 0 <= i < |s'.tables[h].keys| && s'.tables[h].keys[i] == Some(u)
      ensures Some(s'.tables[h].values[i]) == s'.producers[u] || Writing(s'.pcs[u], h, i)
    {
      assert TableExtends(s.tables[h], s'.tables[h], t);
      assert s.tables[h].keys[i] == Some(u);
    }
  }

  /** Keys stay well placed as long as the owners' counts stay and only t, with a good place, comes in. */
  lemma TableKeeps(s: State, s': State, h: nat, t: nat)
    requires |s.counts| == |s.hashes| == |s'.counts|
    requires h < |s.tables| <= |s'.tables| && TableInv(s, h) && s'.hashes == s.hashes
    requires s'.tables[h].keys == s.tables[h].keys
    requires forall u :: 0 <= u < |s.counts| && s.counts[u] > 0 ==> s'.counts[u] == s.counts[u]
    ensures TableInv(s', h)
  {
    forall i | 0 <= i < |s.tables[h].keys|
      ensures KeyInv(s', s'.tables[h], i)
    {
      assert KeyInv(s, s.tables[h], i);
      if s.tables[h].keys[i].Some? {
        var u := s.tables[h].keys[i].value;
        var e: nat :| Place(s.hashes[u], e, |s.tables[h].keys|) == i && Passed(s.tables[h], s.hashes[u], e, u);
        SamePassed(s.tables[h], s'.tables[h], s.hashes[u], e, u);
      }
    }
  }

  lemma SamePassed(a: Table, b: Table, hash: nat, e: nat, u: nat)
    requires a.keys == b.keys && Passed(a, hash, e, u)
    ensures Passed(b, hash, e, u)
  {
    forall d | 0 <= d < e
      ensures TakenByOther(b, Place(hash, d, |b.keys|), u)
    {
      assert TakenByOther(a, Place(hash, d, |a.keys|), u);
    }
  }

  /** What is left to show of a step of thread t: its own part, and what all threads share. */
  lemma Whole(s: State, s': State, t: nat)
    requires Inv(s) && Shaped(s') && Extends(s, s', t) && t < |s.pcs| && LockInv(s') && CountsDistinct(s')
    requires forall h :: 0 <= h < |s'.tables| ==> TableInv(s', h)
    requires ThreadInv(s', t)
    ensures Inv(s')
  {
    hide TableInv, ThreadInv, LockInv, CountsDistinct, Extends;
    forall u | 0 <= u < |s'.pcs|
      ensures ThreadInv(s', u)
    {
      if u != t {
        assert |s'.pcs| == |s.pcs| by { SameThreads(s, s', t); }
        assert ThreadInv(s, u);
        OthersKeep(s, s', t, u);
      }
    }
  }

  lemma SameThreads(s: State, s': State, t: nat)
    requires Extends(s, s', t)
    ensures |s'.pcs| == |s.pcs|
  {
  }

  // ---- Searching ----

  /** Probing that ends at an empty slot proves the thread is not in the table. */
  lemma NotHere(s: State, h: nat, t: nat, e: nat)
    requires |s.counts| == |s.hashes| && h < |s.tables| && t < |s.hashes| && TableInv(s, h)
    requires Passed(s.tables[h], s.hashes[t], e, t)
    requires s.tables[h].keys[Place(s.hashes[t], e, |s.tables[h].keys|)] == None
    ensures !In(s.tables[h], t)
  {
    var table, n := s.tables[h], |s.tables[h].keys|;
    forall j | 0 <= j < n
      ensures table.keys[j] != Some(t)
    {
      assert KeyInv(s, table, j);
    }
  }

  lemma LimitGrows(a: nat, b: nat)
    requires a <= b
    ensures Limit(a) <= Limit(b)
  {
  }

  /** Nothing but the thread's own place in the code has changed. */
  lemma SameValues(s: State, t: nat, p: PC)
    requires Shaped(s) && t < |s.pcs| && ValuesInv(s, t) && Shaped(s.To(t, p)) && !s.pcs[t].Inserted? && !s.pcs[t].Copied?
    ensures ValuesInv(s.To(t, p), t)
  {
  }

  lemma FoundHere(s: State, t: nat)
    requires Inv(s) && t < |s.pcs| && s.pcs[t].Probe? && PCInRange(s, s.pcs[t])
    requires var table := s.tables[s.pcs[t].h]; table.keys[Place(s.hashes[t], s.pcs[t].e, |table.keys|)] == Some(t)
    ensures var table := s.tables[s.pcs[t].h];
            && s.producers[t] == Some(table.values[Place(s.hashes[t], s.pcs[t].e, |table.keys|)])
            && 0 < s.counts[t] < Limit(s.tables[s.pcs[t].main].Capacity())
  {
    var main, h, e := s.pcs[t].main, s.pcs[t].h, s.pcs[t].e;
    var table := s.tables[h];
    var i := Place(s.hashes[t], e, |table.keys|);
    assert ThreadInv(s, t) && TableInv(s, h);
    assert KeyInv(s, table, i);
    assert In(table, t);
    hide Passed, TableInv, KeyInv;
    assert |table.keys| <= |s.tables[main].keys|;
    LimitGrows(|table.keys|, |s.tables[main].keys|);
  }

  lemma MissSelf(s: State, t: nat, s': State)
    requires Shaped(s) && t < |s.pcs| && s.pcs[t].Probe? && PCInRange(s, s.pcs[t]) && ThreadInv(s, t)
    requires !In(s.tables[s.pcs[t].h], t)
    requires s' == s.To(t, if s.pcs[t].h > 0 then Probe(s.pcs[t].main, s.pcs[t].h - 1, 0) else Counting(s.pcs[t].main))
    requires Shaped(s') && ValuesInv(s', t)
    ensures ThreadInv(s', t)
  {
    hide In, ValuesInv;
  }

  lemma FoundSelf(s: State, t: nat, v: nat, s': State)
    requires Shaped(s) && t < |s.pcs| && s.pcs[t].Probe? && PCInRange(s, s.pcs[t]) && ThreadInv(s, t)
    requires s.producers[t] == Some(v) && 0 < s.counts[t] < Limit(s.tables[s.pcs[t].main].Capacity())
    requires s' == s.To(t, if s.pcs[t].h != s.pcs[t].main then Copy(s.pcs[t].main, 0, v) else Done(v))
    requires Shaped(s') && ValuesInv(s', t)
    ensures ThreadInv(s', t)
  {
    hide In, ValuesInv;
  }

  lemma OnSelf(s: State, t: nat, s': State)
    requires Shaped(s) && t < |s.pcs| && s.pcs[t].Probe? && PCInRange(s, s.pcs[t]) && ThreadInv(s, t)
    requires Passed(s.tables[s.pcs[t].h], s.hashes[t], s.pcs[t].e + 1, t)
    requires s' == s.To(t, Probe(s.pcs[t].main, s.pcs[t].h, s.pcs[t].e + 1))
    requires Shaped(s') && ValuesInv(s', t)
    ensures ThreadInv(s', t)
  {
    hide In, ValuesInv, Passed;
  }

  lemma SearchSelf(s: State, t: nat)
    requires Inv(s) && t < |s.pcs| && s.pcs[t].Probe? && Shaped(SearchStep(s, t))
    ensures ThreadInv(SearchStep(s, t), t)
  {
    var main, h, e, s' := s.pcs[t].main, s.pcs[t].h, s.pcs[t].e, SearchStep(s, t);
    assert PCInRange(s, s.pcs[t]) && ThreadInv(s, t) && TableInv(s, h);
    var table := s.tables[h];
    var i := Place(s.hashes[t], e, |table.keys|);
    SameValues(s, t, s'.pcs[t]);
    assert Passed(table, s.hashes[t], e, t);
    hide TableInv, ValuesInv, LockInv, CountsDistinct, ThreadInv, Passed, In;
    if table.keys[i] == None {
      NotHere(s, h, t, e);
      MissSelf(s, t, s');
    } else if table.keys[i] == Some(t) {
      FoundHere(s, t);
      FoundSelf(s, t, table.values[i], s');
    } else {
      PassedMore(table, s.hashes[t], e, t);
      OnSelf(s, t, s');
    }
  }

  lemma PassedMore(table: Table, hash: nat, e: nat, t: nat)
    requires Passed(table, hash, e, t) && TakenByOther(table, Place(hash, e, |table.keys|), t)
    ensures Passed(table, hash, e + 1, t)
  {
  }

  lemma IdleSelf(s: State, t: nat)
    requires Inv(s) && t < |s.pcs| && s.pcs[t].Idle? && Shaped(SearchStep(s, t))
    ensures ThreadInv(SearchStep(s, t), t)
  {
    assert ThreadInv(s, t);
    SameValues(s, t, SearchStep(s, t).pcs[t]);
    hide TableInv, ValuesInv, LockInv, CountsDistinct, In;
  }

  lemma SearchInv(s: State, t: nat)
    requires Inv(s) && t < |s.pcs| && (s.pcs[t].Idle? || s.pcs[t].Probe?)
    ensures Inv(SearchStep(s, t))
  {
    hide ThreadInv, TableInv, LockInv, CountsDistinct, Extends;
    SearchShaped(s, t);
    if s.pcs[t].Probe? {
      SearchSelf(s, t);
    } else {
      IdleSelf(s, t);
    }
    SearchShared(s, t);
    hide Inv, SearchStep;
    Whole(s, SearchStep(s, t), t);
  }

  lemma SearchShaped(s: State, t: nat)
    requires Shaped(s) && t < |s.pcs| && (s.pcs[t].Idle? || s.pcs[t].Probe?)
    ensures Shaped(SearchStep(s, t))
  {
    assert PCInRange(s, s.pcs[t]);
  }

  lemma SearchShared(s: State, t: nat)
    requires Inv(s) && t < |s.pcs| && (s.pcs[t].Idle? || s.pcs[t].Probe?)
    ensures var s' := SearchStep(s, t);
            && Extends(s, s', t) && LockInv(s') && CountsDistinct(s')
            && forall h :: 0 <= h < |s'.tables| ==> TableInv(s', h)
  {
    hide ThreadInv;
    var s' := SearchStep(s, t);
    forall h | 0 <= h < |s.tables|
      ensures TableInv(s', h)
    {
      TableKeeps(s, s', h, t);
    }
  }

  // ---- Resizing ----

  lemma ResizeShaped(s: State, t: nat)
    requires Inv(s) && t < |s.pcs| && InResize(s.pcs[t])
    ensures Shaped(ResizeStep(s, t))
  {
    if s.pcs[t].Grow? {
      assert s.pcs[t].main == |s.tables| - 1;
      hide Inv;
      GrowShaped(s, t);
    } else {
      ResizeExtends(s, t);
      hide Inv, Extends;
      SameTablesRange(s, t);
      RangesKept(s, ResizeStep(s, t), t);
    }
  }

  lemma GrowShaped(s: State, t: nat)
    requires Shaped(s) && t < |s.pcs| && s.pcs[t].Grow? && s.pcs[t].main == |s.tables| - 1
    ensures Shaped(ResizeStep(s, t))
  {
    assert PCInRange(s, s.pcs[t]);
    var s' := ResizeStep(s, t);
    forall u | 0 <= u < |s'.pcs|
      ensures PCInRange(s', s'.pcs[u])
    {
      assert PCInRange(s, s.pcs[u]);
    }
  }

  lemma SameTablesRange(s: State, t: nat)
    requires Shaped(s) && t < |s.pcs| && InResize(s.pcs[t]) && !s.pcs[t].Grow?
    ensures ResizeStep(s, t).tables == s.tables && t < |ResizeStep(s, t).pcs|
    ensures PCInRange(ResizeStep(s, t), ResizeStep(s, t).pcs[t])
  {
    assert PCInRange(s, s.pcs[t]);
  }

  lemma ResizeExtends(s: State, t: nat)
    requires Inv(s) && t < |s.pcs| && InResize(s.pcs[t])
    ensures Extends(s, ResizeStep(s, t), t)
  {
    assert PCInRange(s, s.pcs[t]);
    hide ThreadInv, TableInv, CountsDistinct, LockInv;
  }

  lemma ResizeTables(s: State, t: nat)
    requires Inv(s) && t < |s.pcs| && InResize(s.pcs[t]) && Shaped(ResizeStep(s, t))
    ensures var s' := ResizeStep(s, t);
            (forall h :: 0 <= h < |s'.tables| ==> TableInv(s', h)) && CountsDistinct(s')
  {
    var s' := ResizeStep(s, t);
    assert PCInRange(s, s.pcs[t]) && ThreadInv(s, t);
    assert forall u :: 0 <= u < |s.counts| ==> s.counts[u] <= s.counter by {
      forall u | 0 <= u < |s.counts|
        ensures s.counts[u] <= s.counter
      {
        assert ThreadInv(s, u);
      }
    }
    hide ThreadInv, LockInv;
    forall h | 0 <= h < |s'.tables|
      ensures TableInv(s', h)
    {
      if h < |s.tables| {
        assert TableInv(s, h);
        TableKeeps(s, s', h, t);
      }
    }
  }

  lemma ResizeLock(s: State, t: nat)
    requires Inv(s) && t < |s.pcs| && InResize(s.pcs[t])
    ensures LockInv(ResizeStep(s, t))
  {
    assert PCInRange(s, s.pcs[t]);
    hide ThreadInv, TableInv, CountsDistinct;
  }

  lemma ResizeSelf(s: State, t: nat)
    requires Inv(s) && t < |s.pcs| && InResize(s.pcs[t]) && Shaped(ResizeStep(s, t)) && Extends(s, ResizeStep(s, t), t)
    ensures ThreadInv(ResizeStep(s, t), t)
  {
    var s' := ResizeStep(s, t);
    assert PCInRange(s, s.pcs[t]) && ThreadInv(s, t);
    assert forall h :: 0 <= h < |s.tables| ==> s'.tables[h] == s.tables[h];
    StillNowhere(s, s', t);
    NowhereValues(s', t);
    assert Shaped(s) && |s'.counts| == |s'.producers| == |s'.pcs|;
    hide Inv, Extends, Nowhere, ValuesInv, Somewhere, In, Passed, Shaped, Bigger;
  }

  lemma StillNowhere(s: State, s': State, t: nat)
    requires Extends(s, s', t) && Nowhere(s, t) && forall h :: 0 <= h < |s.tables| ==> s'.tables[h] == s.tables[h]
    ensures Nowhere(s', t)
  {
    forall h | 0 <= h < |s'.tables|
      ensures !In(s'.tables[h], t)
    {
    }
  }

  lemma NowhereValues(s: State, t: nat)
    requires Shaped(s) && t < |s.pcs| && Nowhere(s, t)
    ensures ValuesInv(s, t)
  {
    forall h, i | 0 <= h < |s.tables| && 0 <= i < |s.tables[h].keys|
      ensures s.tables[h].keys[i] != Some(t)
    {
      assert !In(s.tables[h], t);
    }
  }

  lemma ResizeInv(s: State, t: nat)
    requires Inv(s) && t < |s.pcs| && InResize(s.pcs[t])
    ensures Inv(ResizeStep(s, t))
  {
    hide ResizeStep, ThreadInv, TableInv, LockInv, CountsDistinct, Extends;
    ResizeShaped(s, t);
    ResizeExtends(s, t);
    ResizeTables(s, t);
    ResizeLock(s, t);
    ResizeSelf(s, t);
    Whole(s, ResizeStep(s, t), t);
  }

  // ---- Storing ----

  predicate Storing(p: PC) {
    p.Insert? || p.Inserted? || p.Copy? || p.Copied? || p.Done?
  }

  /** A thread comes into a table at the end of its own probing. */
  lemma KeyAdded(s: State, h: nat, t: nat, e: nat)
    requires |s.counts| == |s.hashes| && h < |s.tables| && t < |s.counts| && TableInv(s, h) && s.tables[h].keys != []
    requires Passed(s.tables[h], s.hashes[t], e, t) && !In(s.tables[h], t)
    requires 0 < s.counts[t] < Limit(s.tables[h].Capacity())
    requires s.tables[h].keys[Place(s.hashes[t], e, |s.tables[h].keys|)] == None
    ensures TableInv(SetKey(s, h, Place(s.hashes[t], e, |s.tables[h].keys|), t), h)
  {
    var i, a := Place(s.hashes[t], e, |s.tables[h].keys|), s.tables[h];
    var s' := SetKey(s, h, i, t);
    var b := s'.tables[h];
    forall j | 0 <= j < |b.keys|
      ensures KeyInv(s', b, j)
    {
      assert KeyInv(s, a, j);
      if j == i {
        OwnPassed(a, b, s.hashes[t], e, t, i);
      } else if a.keys[j].Some? {
        var u := a.keys[j].value;
        var e': nat :| Place(s.hashes[u], e', |a.keys|) == j && Passed(a, s.hashes[u], e', u);
        PassedExtends(a, b, t, u, s.hashes[u], e');
      }
    }
  }

  lemma OwnPassed(a: Table, b: Table, hash: nat, e: nat, t: nat, i: nat)
    requires Passed(a, hash, e, t) && i < |a.keys| && a.keys[i] == None && b.keys == a.keys[i := Some(t)]
    ensures Passed(b, hash, e, t)
  {
    forall d | 0 <= d < e
      ensures TakenByOther(b, Place(hash, d, |b.keys|), t)
    {
      assert TakenByOther(a, Place(hash, d, |a.keys|), t);
    }
  }

  /** Filling slots keeps everything in range. */
  lemma RangesKept(s: State, s': State, t: nat)
    requires Shaped(s) && Extends(s, s', t) && |s'.tables| == |s.tables| && t < |s.pcs| && PCInRange(s', s'.pcs[t])
    ensures Shaped(s')
  {
    forall u | 0 <= u < |s'.pcs|
      ensures PCInRange(s', s'.pcs[u])
    {
      assert PCInRange(s, s.pcs[u]);
    }
  }

  lemma StoreShaped(s: State, t: nat)
    requires Inv(s) && t < |s.pcs| && Storing(s.pcs[t])
    ensures Shaped(StoreStep(s, t)) && LockInv(StoreStep(s, t)) && CountsDistinct(StoreStep(s, t))
  {
    assert PCInRange(s, s.pcs[t]);
    StoreExtends(s, t);
    StoreRange(s, t);
    RangesKept(s, StoreStep(s, t), t);
    hide ThreadInv, TableInv, Extends, PCInRange;
  }

  lemma StoreRange(s: State, t: nat)
    requires Shaped(s) && t < |s.pcs| && Storing(s.pcs[t])
    ensures PCInRange(StoreStep(s, t), StoreStep(s, t).pcs[t]) && |StoreStep(s, t).tables| == |s.tables|
  {
    assert PCInRange(s, s.pcs[t]);
  }

  lemma StoreExtends(s: State, t: nat)
    requires Inv(s) && t < |s.pcs| && Storing(s.pcs[t])
    ensures Extends(s, StoreStep(s, t), t)
  {
    assert PCInRange(s, s.pcs[t]) && ThreadInv(s, t);
    assert s.pcs[t].Inserted? || s.pcs[t].Copied? ==> s.tables[s.pcs[t].main].keys[s.pcs[t].i] == Some(t);
    hide Inv, ThreadInv;
    if s.pcs[t].Insert? || s.pcs[t].Copy? {
      KeyExtends(s, t);
    } else {
      ValueExtends(s, t);
    }
  }

  lemma KeyExtends(s: State, t: nat)
    requires Shaped(s) && t < |s.pcs| && (s.pcs[t].Insert? || s.pcs[t].Copy?)
    ensures Extends(s, StoreStep(s, t), t)
  {
    assert PCInRange(s, s.pcs[t]);
  }

  lemma ValueExtends(s: State, t: nat)
    requires Shaped(s) && t < |s.pcs| && Storing(s.pcs[t]) && !s.pcs[t].Insert? && !s.pcs[t].Copy? && PCInRange(s, s.pcs[t])
    requires s.pcs[t].Inserted? || s.pcs[t].Copied? ==> s.tables[s.pcs[t].main].keys[s.pcs[t].i] == Some(t)
    ensures Extends(s, StoreStep(s, t), t)
  {
  }

  lemma StoreTables(s: State, t: nat, h: nat)
    requires Inv(s) && t < |s.pcs| && Storing(s.pcs[t]) && h < |s.tables| == |StoreStep(s, t).tables|
    ensures |StoreStep(s, t).counts| == |StoreStep(s, t).hashes| && TableInv(StoreStep(s, t), h)
  {
    var s', p := StoreStep(s, t), s.pcs[t];
    assert PCInRange(s, p) && ThreadInv(s, t) && TableInv(s, h);
    hide TableInv, LockInv, ValuesInv, Somewhere, CountsDistinct, In, Passed;
    if (p.Insert? || p.Copy?) && p.main == h && s'.tables[h].keys != s.tables[h].keys {
      assert p.Insert? ==> !In(s.tables[h], t);
      KeyAdded(s, h, t, p.e);
      TableKeeps(SetKey(s, h, Place(s.hashes[t], p.e, |s.tables[h].keys|), t), s', h, t);
    } else {
      TableKeeps(s, s', h, t);
    }
  }

  lemma StoreSelf(s: State, t: nat)
    requires Inv(s) && t < |s.pcs| && Storing(s.pcs[t]) && Shaped(StoreStep(s, t))
    ensures ThreadInv(StoreStep(s, t), t)
  {
    assert PCInRange(s, s.pcs[t]) && ThreadInv(s, t);
    hide TableInv, LockInv, CountsDistinct;
    if s.pcs[t].Insert? || s.pcs[t].Copy? {
      TrySelf(s, t);
    } else {
      WriteSelf(s, t);
    }
  }

  lemma TrySelf(s: State, t: nat)
    requires Shaped(s) && t < |s.pcs| && ThreadInv(s, t) && (s.pcs[t].Insert? || s.pcs[t].Copy?) && Shaped(StoreStep(s, t))
    ensures ThreadInv(StoreStep(s, t), t)
  {
    var s', main, e := StoreStep(s, t), s.pcs[t].main, s.pcs[t].e;
    assert PCInRange(s, s.pcs[t]);
    var i := Place(s.hashes[t], e, |s.tables[main].keys|);
    assert !In(s.tables[main], t);
    if s.tables[main].keys[i] == None {
      AddedValues(s, t, main, i, s');
      AddedSomewhere(s, t, main, i, s');
      hide ValuesInv, Passed, In, Nowhere, Somewhere;
    } else {
      assert TakenByOther(s.tables[main], i, t);
      PassedMore(s.tables[main], s.hashes[t], e, t);
      SameValues(s, t, s'.pcs[t]);
      hide ValuesInv, Passed, In, Nowhere, Somewhere;
    }
  }

  lemma AddedValues(s: State, t: nat, main: nat, i: nat, s': State)
    requires Shaped(s) && t < |s.pcs| && ValuesInv(s, t) && !Inserting(s.pcs[t]) && main < |s.tables| && i < |s.tables[main].keys|
    requires Shaped(s') && |s'.pcs| == |s.pcs| && s'.producers == s.producers && Writing(s'.pcs[t], main, i)
    requires s'.tables == SetKey(s, main, i, t).tables
    ensures ValuesInv(s', t)
  {
    forall h, j | 0 <= h < |s'.tables| && 0 <= j < |s'.tables[h].keys| && s'.tables[h].keys[j] == Some(t)
      ensures Some(s'.tables[h].values[j]) == s'.producers[t] || Writing(s'.pcs[t], h, j)
    {
      assert (h, j) == (main, i) || s.tables[h].keys[j] == Some(t);
    }
  }

  predicate Inserting(p: PC) {
    p.Inserted? || p.Copied?
  }

  lemma AddedSomewhere(s: State, t: nat, main: nat, i: nat, s': State)
    requires main < |s.tables| && i < |s.tables[main].keys| && s'.tables == SetKey(s, main, i, t).tables
    ensures In(s'.tables[main], t) && Somewhere(s', |s'.tables| - 1, t)
  {
    assert s'.tables[main].keys[i] == Some(t);
    assert In(s'.tables[main], t);
  }

  lemma WriteSelf(s: State, t: nat)
    requires Shaped(s) && t < |s.pcs| && ThreadInv(s, t) && Storing(s.pcs[t]) && !s.pcs[t].Insert? && !s.pcs[t].Copy?
    requires Shaped(StoreStep(s, t))
    ensures ThreadInv(StoreStep(s, t), t)
  {
    var s', p := StoreStep(s, t), s.pcs[t];
    assert PCInRange(s, p);
    if p.Done? {
      SameValues(s, t, Idle);
      hide ValuesInv, Nowhere, Somewhere;
    } else {
      WrittenValues(s, t, s');
      assert s'.tables[p.main].keys[p.i] == Some(t);
      assert In(s'.tables[p.main], t);
      assert Somewhere(s', |s'.tables| - 1, t);
      hide ValuesInv, In, Nowhere, Somewhere;
    }
  }

  lemma WrittenValues(s: State, t: nat, s': State)
    requires Shaped(s) && t < |s.pcs| && ThreadInv(s, t) && Inserting(s.pcs[t]) && PCInRange(s, s.pcs[t])
    requires Shaped(s') && |s'.pcs| == |s.pcs| && s'.producers[t] == Some(s.pcs[t].producer)
    requires s'.tables == SetValue(s, s.pcs[t].main, s.pcs[t].i, s.pcs[t].producer).tables
    ensures ValuesInv(s', t)
  {
    var main, i := s.pcs[t].main, s.pcs[t].i;
    forall h, j | 0 <= h < |s'.tables| && 0 <= j < |s'.tables[h].keys| && s'.tables[h].keys[j] == Some(t)
      ensures Some(s'.tables[h].values[j]) == s'.producers[t] || Writing(s'.pcs[t], h, j)
    {
      assert s.tables[h].keys[j] == Some(t);
    }
  }

  lemma StoreInv(s: State, t: nat)
    requires Inv(s) && t < |s.pcs| && Storing(s.pcs[t])
    ensures Inv(StoreStep(s, t))
  {
    hide StoreStep, ThreadInv, TableInv, LockInv, CountsDistinct, Extends;
    StoreShaped(s, t);
    StoreExtends(s, t);
    StoreRange(s, t);
    forall h | 0 <= h < |s.tables|
      ensures |StoreStep(s, t).counts| == |StoreStep(s, t).hashes| && TableInv(StoreStep(s, t), h)
    {
      StoreTables(s, t, h);
    }
    StoreSelf(s, t);
    Whole(s, StoreStep(s, t), t);
  }

  lemma InitInv(s: State)
    requires Init(s)
    ensures Inv(s)
  {
    forall h | 0 <= h < |s.tables|
      ensures TableInv(s, h)
    {
    }
    forall t | 0 <= t < |s.pcs|
      ensures ThreadInv(s, t)
    {
      assert Nowhere(s, t);
      NowhereValues(s, t);
    }
  }

  lemma StepInv(s: State, t: nat)
    requires Inv(s) && t < |s.pcs|
    ensures Inv(Step(s, t))
  {
    if s.pcs[t].Idle? || s.pcs[t].Probe? {
      SearchInv(s, t);
    } else if InResize(s.pcs[t]) {
      ResizeInv(s, t);
    } else {
      StoreInv(s, t);
    }
    hide Inv;
  }

  // ---- Whole runs ----

  ghost predicate Execution(states: seq<State>, moves: seq<nat>) {
    && |states| == |moves| + 1 && Init(states[0])
    && (forall k :: 0 <= k < |moves| ==> Follows(states[k], moves[k], states[k + 1]))
  }

  ghost predicate Follows(s: State, t: nat, s': State) {
    Shaped(s) && t < |s.pcs| && s' == Step(s, t)
  }

  lemma {:induction false} Always(states: seq<State>, moves: seq<nat>, k: nat)
    requires Execution(states, moves) && k < |states|
    ensures Inv(states[k])
  {
    hide Inv, Init, Step;
    if k == 0 {
      InitInv(states[0]);
    } else {
      Always(states, moves, k - 1);
      assert Follows(states[k - 1], moves[k - 1], states[k]);
      StepInv(states[k - 1], moves[k - 1]);
    }
  }

  /** Every table always keeps a free slot. */
  lemma AlwaysRoom(states: seq<State>, moves: seq<nat>, k: nat, h: nat) returns (i: nat)
    requires Execution(states, moves) && k < |states| && h < |states[k].tables|
    ensures i < |states[k].tables[h].keys| && states[k].tables[h].keys[i] == None
  {
    Always(states, moves, k);
    assert TableInv(states[k], h);
    i := FreeSlot(states[k], states[k].tables[h]);
  }

  /** So no probe loop goes once around its table, whatever the other threads put in meanwhile. */
  lemma ProbesEnd(states: seq<State>, moves: seq<nat>, k: nat, t: nat)
    requires Execution(states, moves) && k < |states| && t < |states[k].pcs|
    ensures var s, p := states[k], states[k].pcs[t];
            && (p.Probe? ==> p.h < |s.tables| && p.e < s.tables[p.h].Capacity())
            && (p.Insert? || p.Copy? ==> p.main < |s.tables| && p.e < s.tables[p.main].Capacity())
  {
    Always(states, moves, k);
    var s, p := states[k], states[k].pcs[t];
    assert PCInRange(s, p) && ThreadInv(s, t);
    if p.Probe? {
      assert TableInv(s, p.h);
      ProbeStops(s, s.tables[p.h], s.hashes[t], p.e, t);
    } else if p.Insert? || p.Copy? {
      assert TableInv(s, p.main);
      ProbeStops(s, s.tables[p.main], s.hashes[t], p.e, t);
    }
  }

  lemma {:induction false} ProducerKept(states: seq<State>, moves: seq<nat>, j: nat, k: nat, t: nat)
    requires Execution(states, moves) && j <= k < |states|
    requires t < |states[j].producers| && states[j].producers[t].Some?
    ensures t < |states[k].producers| && states[k].producers[t] == states[j].producers[t]
    decreases k
  {
    hide Inv, Step;
    if j < k {
      ProducerKept(states, moves, j, k - 1, t);
      Always(states, moves, k - 1);
      assert Follows(states[k - 1], moves[k - 1], states[k]);
      OnceRegistered(states[k - 1], moves[k - 1], t);
    }
  }

  lemma OnceRegistered(s: State, t: nat, u: nat)
    requires Inv(s) && t < |s.pcs| && u < |s.producers| && s.producers[u].Some?
    ensures u < |Step(s, t).producers| && Step(s, t).producers[u] == s.producers[u]
  {
    assert ThreadInv(s, t) && PCInRange(s, s.pcs[t]);
    hide TableInv, LockInv, CountsDistinct, ValuesInv, Somewhere, Nowhere, In, Passed;
  }

  /** However many resizes and copies happen in between, a thread gets the same producer every time. */
  lemma SameProducer(states: seq<State>, moves: seq<nat>, j: nat, k: nat, t: nat)
    requires Execution(states, moves) && j < k < |states| && t < |states[j].pcs| && t < |states[k].pcs|
    requires states[j].pcs[t].Done? && states[k].pcs[t].Done?
    ensures states[j].pcs[t].producer == states[k].pcs[t].producer
  {
    Always(states, moves, j);
    Always(states, moves, k);
    assert ThreadInv(states[j], t) && ThreadInv(states[k], t);
    ProducerKept(states, moves, j, k, t);
  }

  // ---- Different threads, different producers ----

  /** The producer a thread has or is about to register. */
  function Own(s: State, t: nat): Option<nat>
    requires t < |s.pcs| == |s.producers|
  {
    if s.producers[t].Some? then s.producers[t]
    else if s.pcs[t].Insert? || s.pcs[t].Inserted? then Some(s.pcs[t].producer)
    else None
  }

  ghost predicate OwnInv(s: State) {
    && |s.pcs| == |s.producers|
    && (forall t :: 0 <= t < |s.pcs| && Own(s, t).Some? ==> Own(s, t).value < s.made)
    && (forall t, u :: 0 <= t < u < |s.pcs| && Own(s, t).Some? ==> Own(s, t) != Own(s, u))
  }

  /** Only a thread that finds room gets a producer, and that one is new. */
  ghost predicate OwnStep(s: State, s': State, t: nat)
    requires t < |s.pcs| == |s.producers|
  {
    && |s'.pcs| == |s.pcs| == |s'.producers|
    && (forall u :: 0 <= u < |s.pcs| && u != t ==> Own(s', u) == Own(s, u))
    && s'.made >= s.made
    && (Own(s', t) == Own(s, t) || (Own(s', t) == Some(s.made) && s'.made == s.made + 1))
  }

  lemma SearchOwn(s: State, t: nat)
    requires Shaped(s) && t < |s.pcs| && (s.pcs[t].Idle? || s.pcs[t].Probe?)
    ensures OwnStep(s, SearchStep(s, t), t)
  {
    assert PCInRange(s, s.pcs[t]);
  }

  lemma ResizeOwn(s: State, t: nat)
    requires Shaped(s) && t < |s.pcs| && InResize(s.pcs[t]) && s.producers[t].None?
    ensures OwnStep(s, ResizeStep(s, t), t)
  {
    assert PCInRange(s, s.pcs[t]);
  }

  lemma StoreOwn(s: State, t: nat)
    requires Shaped(s) && t < |s.pcs| && Storing(s.pcs[t])
    requires s.pcs[t].Insert? || s.pcs[t].Inserted? ==> s.producers[t].None?
    ensures OwnStep(s, StoreStep(s, t), t)
  {
    assert PCInRange(s, s.pcs[t]);
  }

  lemma StepOwn(s: State, t: nat)
    requires Inv(s) && t < |s.pcs| && OwnInv(s)
    ensures OwnInv(Step(s, t))
  {
    assert ThreadInv(s, t);
    hide TableInv, LockInv, CountsDistinct, SearchStep, ResizeStep, StoreStep, Shaped, ValuesInv, Nowhere, Somewhere, In, Passed;
    if s.pcs[t].Idle? || s.pcs[t].Probe? {
      SearchOwn(s, t);
    } else if InResize(s.pcs[t]) {
      ResizeOwn(s, t);
    } else {
      StoreOwn(s, t);
    }
    OwnKept(s, Step(s, t), t);
  }

  lemma OwnKept(s: State, s': State, t: nat)
    requires OwnInv(s) && t < |s.pcs| && OwnStep(s, s', t)
    ensures OwnInv(s')
  {
    hide Own;
  }

  lemma {:induction false} AlwaysOwn(states: seq<State>, moves: seq<nat>, k: nat)
    requires Execution(states, moves) && k < |states|
    ensures OwnInv(states[k])
  {
    hide Step, OwnInv;
    if k == 0 {
      InitOwn(states[0]);
    } else {
      AlwaysOwn(states, moves, k - 1);
      Always(states, moves, k - 1);
      assert Follows(states[k - 1], moves[k - 1], states[k]);
      StepOwn(states[k - 1], moves[k - 1]);
    }
  }

  lemma InitOwn(s: State)
    requires Init(s)
    ensures OwnInv(s)
  {
  }

  /** No two threads ever share a producer. */
  lemma OwnProducers(states: seq<State>, moves: seq<nat>, k: nat, t: nat, u: nat)
    requires Execution(states, moves) && k < |states| && t < u < |states[k].pcs|
    requires states[k].pcs[t].Done? && states[k].pcs[u].Done?
    ensures states[k].pcs[t].producer != states[k].pcs[u].producer
  {
    Always(states, moves, k);
    AlwaysOwn(states, moves, k);
    var s := states[k];
    assert ThreadInv(s, t) && ThreadInv(s, u);
    hide TableInv, LockInv, CountsDistinct;
    assert Own(s, t) == Some(s.pcs[t].producer) && Own(s, u) == Some(s.pcs[u].producer);
  }

  // ---- A thread left alone ends ----

  ghost function Alone(s: State, t: nat, n: nat): (r: State)
    requires Inv(s) && t < |s.pcs|
    ensures Inv(r) && |r.pcs| == |s.pcs|
    decreases n
  {
    if n == 0 then s
    else
      StepInv(s, t);
      StepFrame(s, t);
      Alone(Step(s, t), t, n - 1)
  }

  lemma StepFrame(s: State, t: nat)
    requires Shaped(s) && t < |s.pcs|
    ensures |Step(s, t).pcs| == |s.pcs| && forall u :: 0 <= u < |s.pcs| && u != t ==> Step(s, t).pcs[u] == s.pcs[u]
  {
    assert PCInRange(s, s.pcs[t]);
  }

  /** The lock is free, or the thread's own. */
  predicate Clear(s: State, t: nat)
    requires t < |s.pcs|
  {
    !s.locked || InLock(s.pcs[t])
  }

  function Capacities(tables: seq<Table>): nat {
    if tables == [] then 0 else Capacities(tables[..|tables| - 1]) + tables[|tables| - 1].Capacity()
  }

  /** The largest table a thread with this count can come to work on. */
  function Largest(s: State, count: nat): nat
    requires s.tables != [] && s.tables[|s.tables| - 1].keys != []
  {
    Bigger(2 * s.tables[|s.tables| - 1].Capacity(), count)
  }

  /** More than the steps a thread at p with this count still has to take: once through each table
      and once through the newest, or through one bigger table. */
  ghost function Fuel(s: State, c: nat, p: PC): int
    requires s.tables != [] && s.tables[|s.tables| - 1].keys != [] && PCInRange(s, p)
  {
    match p
    case Idle => Capacities(s.tables) + Largest(s, s.counter + 1) + 9
    case Probe(_, h, e) => Capacities(s.tables[..h + 1]) - e + Largest(s, s.counter + 1) + 8
    case Counting(_) => Largest(s, s.counter + 1) + 8
    case Check(_) => Largest(s, c) + 7
    case Locked => Largest(s, c) + 6
    case Grow(_) => Largest(s, c) + 5
    case Unlock(main) => DecideFuel(s, main, c) + 1
    case Decide(main) => DecideFuel(s, main, c)
    case Insert(main, e, _) => s.tables[main].Capacity() - e + 2
    case Copy(main, e, _) => s.tables[main].Capacity() - e + 2
    case Inserted(_, _, _) => 1
    case Copied(_, _, _) => 1
    case Done(_) => 0
  }

  function DecideFuel(s: State, main: nat, c: nat): nat
    requires main < |s.tables| && s.tables[|s.tables| - 1].keys != []
  {
    if c < Limit(s.tables[main].Capacity()) then s.tables[main].Capacity() + 3 else Largest(s, c) + 8
  }

  /** What a thread in a probe loop has not seen yet. */
  ghost predicate Inside(s: State, p: PC) {
    && (p.Probe? ==>
          && p.h <= p.main < |s.tables| && p.e < s.tables[p.h].Capacity()
          && Capacities(s.tables[..p.h + 1]) == Capacities(s.tables[..p.h]) + s.tables[p.h].Capacity())
    && (p.Insert? || p.Copy? ==> p.main < |s.tables| && p.e < s.tables[p.main].Capacity())
  }

  lemma StaysInside(s: State, t: nat)
    requires Inv(s) && t < |s.pcs|
    ensures Inside(s, s.pcs[t])
  {
    var p := s.pcs[t];
    assert PCInRange(s, p) && ThreadInv(s, t);
    if p.Probe? {
      assert TableInv(s, p.h);
      ProbeStops(s, s.tables[p.h], s.hashes[t], p.e, t);
      assert s.tables[..p.h + 1][..p.h] == s.tables[..p.h];
    } else if p.Insert? || p.Copy? {
      assert TableInv(s, p.main);
      ProbeStops(s, s.tables[p.main], s.hashes[t], p.e, t);
    }
  }

  /** The thread's surroundings, spelled out. */
  ghost predicate Ready(s: State, t: nat) {
    && t < |s.pcs| == |s.hashes| == |s.counts| && s.tables != [] && s.tables[|s.tables| - 1].keys != []
    && PCInRange(s, s.pcs[t]) && Inside(s, s.pcs[t])
    && (s.pcs[t].Grow? ==> s.pcs[t].main == |s.tables| - 1)
    && forall h :: 0 <= h < |s.tables| ==> s.tables[h].Capacity() <= s.tables[|s.tables| - 1].Capacity()
  }

  lemma ReadyAlways(s: State, t: nat)
    requires Inv(s) && t < |s.pcs|
    ensures Ready(s, t)
  {
    StaysInside(s, t);
    hide Inside;
  }

  ghost function Left(s: State, t: nat): (n: nat)
    requires Ready(s, t)
  {
    Fuel(s, s.counts[t], s.pcs[t])
  }

  lemma FuelFalls(s: State, t: nat)
    requires Inv(s) && t < |s.pcs| && Clear(s, t) && !s.pcs[t].Done?
    ensures var s' := Step(s, t);
            Inv(s') && Ready(s, t) && Ready(s', t) && Clear(s', t) && Left(s', t) < Left(s, t)
  {
    StepInv(s, t);
    StepFrame(s, t);
    ReadyAlways(s, t);
    ReadyAlways(Step(s, t), t);
    assert Shaped(s);
    hide Inv, Shaped, Fuel, SearchStep, ResizeStep, StoreStep, Clear, Ready;
    if s.pcs[t].Idle? || s.pcs[t].Probe? {
      SearchFuel(s, t);
    } else if InResize(s.pcs[t]) {
      ResizeFuel(s, t);
    } else {
      StoreFuel(s, t);
    }
  }

  lemma SearchFuel(s: State, t: nat)
    requires Shaped(s) && t < |s.pcs| && Clear(s, t) && (s.pcs[t].Idle? || s.pcs[t].Probe?)
    requires Ready(s, t) && Ready(SearchStep(s, t), t)
    ensures Clear(SearchStep(s, t), t) && Left(SearchStep(s, t), t) < Left(s, t)
  {
    hide Shaped, Bigger, Place, Capacities;
    var last := |s.tables| - 1;
    assert s.tables[..last + 1] == s.tables;
  }

  lemma ResizeFuel(s: State, t: nat)
    requires Shaped(s) && t < |s.pcs| && Clear(s, t) && InResize(s.pcs[t])
    requires Ready(s, t) && Ready(ResizeStep(s, t), t)
    ensures Clear(ResizeStep(s, t), t) && Left(ResizeStep(s, t), t) < Left(s, t)
  {
    hide Shaped, ResizeStep, Fuel, Ready, Clear, Left;
    match s.pcs[t]
    case Counting(_) => CheckFuel(s, t);
    case Check(_) => CheckFuel(s, t);
    case Locked => GrowFuel(s, t);
    case Grow(_) => GrowFuel(s, t);
    case _ => DecideLeft(s, t);
  }

  lemma CheckFuel(s: State, t: nat)
    requires Shaped(s) && t < |s.pcs| && Clear(s, t) && (s.pcs[t].Counting? || s.pcs[t].Check?)
    requires Ready(s, t) && Ready(ResizeStep(s, t), t)
    ensures Clear(ResizeStep(s, t), t) && Left(ResizeStep(s, t), t) < Left(s, t)
  {
    hide Shaped, Bigger, Place, Capacities, Inside;
  }

  /** A table half full or less has room, and one made for a count is half full or less. */
  lemma GrowFuel(s: State, t: nat)
    requires Shaped(s) && t < |s.pcs| && Clear(s, t) && (s.pcs[t].Locked? || s.pcs[t].Grow?)
    requires Ready(s, t) && Ready(ResizeStep(s, t), t)
    ensures Clear(ResizeStep(s, t), t) && Left(ResizeStep(s, t), t) < Left(s, t)
  {
    hide Shaped, Bigger, Place, Capacities, Inside;
  }

  lemma DecideLeft(s: State, t: nat)
    requires Shaped(s) && t < |s.pcs| && Clear(s, t) && (s.pcs[t].Unlock? || s.pcs[t].Decide?)
    requires Ready(s, t) && Ready(ResizeStep(s, t), t)
    ensures Clear(ResizeStep(s, t), t) && Left(ResizeStep(s, t), t) < Left(s, t)
  {
    hide Shaped, Bigger, Place, Capacities, Inside;
  }

  lemma StoreFuel(s: State, t: nat)
    requires Shaped(s) && t < |s.pcs| && Clear(s, t) && Storing(s.pcs[t]) && !s.pcs[t].Done?
    requires Ready(s, t) && Ready(StoreStep(s, t), t)
    ensures Clear(StoreStep(s, t), t) && Left(StoreStep(s, t), t) < Left(s, t)
  {
    hide Shaped, Bigger, Place, Capacities;
  }

  /** The bound in plain numbers. */
  lemma LeftBounded(s: State, t: nat)
    requires Inv(s) && t < |s.pcs| && Ready(s, t)
    ensures Left(s, t) <= Capacities(s.tables) + 2 * s.tables[|s.tables| - 1].Capacity() + 4 * s.counter + 15
  {
    assert ThreadInv(s, t);
    assert s.counts[t] <= s.counter;
    hide Inv, ThreadInv;
    LeftInNumbers(s, t);
  }

  /** The capacity doubles no further than it must. */
  lemma {:induction false} BiggerBounded(capacity: nat, count: nat)
    requires capacity > 0
    ensures Bigger(capacity, count) == capacity || Bigger(capacity, count) <= 4 * count + 2
    decreases if count >= capacity / 2 then 2 * count + 2 - capacity else 0
  {
    if count >= capacity / 2 {
      BiggerBounded(2 * capacity, count);
    }
  }

  lemma LeftInNumbers(s: State, t: nat)
    requires Ready(s, t) && s.counts[t] <= s.counter
    ensures Left(s, t) <= Capacities(s.tables) + 2 * s.tables[|s.tables| - 1].Capacity() + 4 * s.counter + 15
  {
    hide Bigger, Capacities;
    BiggerBounded(2 * s.tables[|s.tables| - 1].Capacity(), s.counts[t]);
    BiggerBounded(2 * s.tables[|s.tables| - 1].Capacity(), s.counter + 1);
    if s.pcs[t].Probe? {
      FewerTables(s.tables, s.pcs[t].h + 1);
    }
  }

  lemma {:induction false} FewerTables(tables: seq<Table>, n: nat)
    requires n <= |tables|
    ensures Capacities(tables[..n]) <= Capacities(tables)
  {
    if n == |tables| {
      assert tables[..n] == tables;
    } else {
      FewerTables(tables[..|tables| - 1], n);
      assert tables[..|tables| - 1][..n] == tables[..n];
    }
  }

  lemma LoneStep(s: State, t: nat)
    requires Inv(s) && t < |s.pcs|
    ensures Inv(Step(s, t)) && t < |Step(s, t).pcs| == |s.pcs| == |s.producers| == |Step(s, t).producers|
    ensures s.producers[t].Some? ==> Step(s, t).producers[t] == s.producers[t]
    ensures forall u :: 0 <= u < |s.pcs| && u != t ==> Step(s, t).pcs[u] == s.pcs[u]
  {
    StepInv(s, t);
    StepFrame(s, t);
    assert Shaped(s) && Shaped(Step(s, t));
    hide Step, Inv;
    if s.producers[t].Some? {
      OnceRegistered(s, t, t);
    }
  }

  lemma {:induction false} LoneRun(s: State, t: nat) returns (n: nat)
    requires Inv(s) && t < |s.pcs| && Clear(s, t)
    ensures Ready(s, t) && n <= Left(s, t)
    ensures var r := Alone(s, t, n);
            && |r.pcs| == |s.pcs| == |r.producers| == |s.producers|
            && r.pcs[t].Done? && r.producers[t] == Some(r.pcs[t].producer)
            && (s.producers[t].Some? ==> r.producers[t] == s.producers[t])
            && forall u :: 0 <= u < |s.pcs| && u != t ==> r.pcs[u] == s.pcs[u]
    decreases (ReadyAlways(s, t); Left(s, t))
  {
    ReadyAlways(s, t);
    if s.pcs[t].Done? {
      n := 0;
      assert ThreadInv(s, t);
    } else {
      hide Inv, Left, Step, Clear, Ready;
      FuelFalls(s, t);
      LoneStep(s, t);
      n := LoneRun(Step(s, t), t);
      n := n + 1;
    }
  }

  /** Whatever the others were doing when they stopped, a thread that no resize keeps out ends with
      its own producer, the one it already had if it had one, in so many steps of its own. */
  lemma LoneEnds(states: seq<State>, moves: seq<nat>, k: nat, t: nat) returns (n: nat)
    requires Execution(states, moves) && k < |states| && t < |states[k].pcs| && Clear(states[k], t)
    ensures var s := states[k];
            Inv(s) && n <= Capacities(s.tables) + 2 * s.tables[|s.tables| - 1].Capacity() + 4 * s.counter + 15
    ensures var s, r := states[k], Alone(states[k], t, n);
            && |r.pcs| == |s.pcs| == |r.producers| == |s.producers|
            && r.pcs[t].Done? && r.producers[t] == Some(r.pcs[t].producer)
            && (s.producers[t].Some? ==> r.producers[t] == s.producers[t])
            && forall u :: 0 <= u < |s.pcs| && u != t ==> r.pcs[u] == s.pcs[u]
  {
    Always(states, moves, k);
    n := LoneRun(states[k], t);
    LeftBounded(states[k], t);
  }

  /** A table is added only when the newest is half full, and it is the smallest of its doublings that
      is not: at least twice the size. */
  lemma GrowsWhenHalfFull(states: seq<State>, moves: seq<nat>, k: nat)
    requires Execution(states, moves) && k < |moves| && |states[k + 1].tables| != |states[k].tables|
    ensures var s, s', t := states[k], states[k + 1], moves[k];
            && 0 < |s.tables| && |s'.tables| == |s.tables| + 1 && t < |s.counts|
            && var c, small, large := s.counts[t], s.tables[|s.tables| - 1].Capacity(), s'.tables[|s.tables|].Capacity();
               && small / 2 <= c < large / 2 && 2 * small <= large
               && (large == 2 * small || large <= 4 * c + 2)
  {
    Always(states, moves, k);
    assert Follows(states[k], moves[k], states[k + 1]);
    var s, s', t := states[k], states[k + 1], moves[k];
    assert PCInRange(s, s.pcs[t]) && ThreadInv(s, t);
    hide TableInv, CountsDistinct, ValuesInv;
    if s.pcs[t].Grow? {
      BiggerBounded(2 * s.tables[|s.tables| - 1].Capacity(), s.counts[t]);
    }
  }

  /** A thread that ends is in the table it started on, or the newest one after a resize: found in an
      older table, it has been copied. */
  lemma EndsCopied(states: seq<State>, moves: seq<nat>, k: nat)
    requires Execution(states, moves) && k < |moves| && moves[k] < |states[k].pcs| && moves[k] < |states[k + 1].pcs|
    requires !states[k].pcs[moves[k]].Done? && states[k + 1].pcs[moves[k]].Done?
    ensures var p := states[k].pcs[moves[k]];
            && (p.Probe? || p.Inserted? || p.Copied?)
            && p.main < |states[k + 1].tables| && In(states[k + 1].tables[p.main], moves[k])
  {
    Always(states, moves, k);
    assert Follows(states[k], moves[k], states[k + 1]);
    var s, t := states[k], moves[k];
    var p := s.pcs[t];
    assert PCInRange(s, p) && ThreadInv(s, t);
    hide TableInv, CountsDistinct, LockInv, ValuesInv, Nowhere, Somewhere, Passed;
    if p.Probe? {
      assert s.tables[p.main].keys[Place(s.hashes[t], p.e, |s.tables[p.main].keys|)] == Some(t);
    } else if p.Inserted? || p.Copied? {
      assert states[k + 1].tables[p.main].keys[p.i] == Some(t);
    }
  }

  // ---- How full a table gets ----

  /** 32, doubled any number of times. */
  predicate PowerOfTwo(c: nat) {
    c == 32 || (c > 32 && c % 2 == 0 && PowerOfTwo(c / 2))
  }

  lemma {:induction false} Quarters(c: nat)
    requires PowerOfTwo(c)
    ensures c % 4 == 0
  {
    if c != 32 {
      Quarters(c / 2);
    }
  }

  lemma {:induction false} BiggerDoubles(capacity: nat, count: nat)
    requires PowerOfTwo(capacity)
    ensures PowerOfTwo(Bigger(capacity, count))
    decreases if count >= capacity / 2 then 2 * count + 2 - capacity else 0
  {
    if count >= capacity / 2 {
      BiggerDoubles(2 * capacity, count);
    }
  }

  lemma SameCapacities(s: State, t: nat)
    requires Inv(s) && t < |s.pcs| && forall h :: 0 <= h < |s.tables| ==> PowerOfTwo(s.tables[h].Capacity())
    ensures forall h :: 0 <= h < |Step(s, t).tables| ==> PowerOfTwo(Step(s, t).tables[h].Capacity())
  {
    assert PCInRange(s, s.pcs[t]);
    var last := s.tables[|s.tables| - 1].Capacity();
    assert s.pcs[t].Grow? ==> s.pcs[t].main == |s.tables| - 1;
    hide TableInv, ThreadInv, LockInv, CountsDistinct;
    BiggerDoubles(2 * last, s.counts[t]);
  }

  /** So the mask by which the code finds a place is the remainder. */
  lemma {:induction false} PowersOfTwo(states: seq<State>, moves: seq<nat>, k: nat, h: nat)
    requires Execution(states, moves) && k < |states| && h < |states[k].tables|
    ensures PowerOfTwo(states[k].tables[h].Capacity())
  {
    AllPowers(states, moves, k);
  }

  lemma {:induction false} AllPowers(states: seq<State>, moves: seq<nat>, k: nat)
    requires Execution(states, moves) && k < |states|
    ensures forall h :: 0 <= h < |states[k].tables| ==> PowerOfTwo(states[k].tables[h].Capacity())
  {
    if k > 0 {
      hide Inv, Step, PowerOfTwo;
      AllPowers(states, moves, k - 1);
      Always(states, moves, k - 1);
      assert Follows(states[k - 1], moves[k - 1], states[k]);
      SameCapacities(states[k - 1], moves[k - 1]);
    }
  }

  /** A thread gets a place exactly in a table that its count leaves a quarter of free, whether or not
      another thread is resizing; and no thread is ever in any other table. */
  lemma RoomIsAQuarter(states: seq<State>, moves: seq<nat>, k: nat, t: nat)
    requires Execution(states, moves) && k < |states| && t < |states[k].pcs| && states[k].pcs[t].Decide?
    ensures var s, main := states[k], states[k].pcs[t].main;
            main < |s.tables| && t < |s.counts| && Shaped(s)
            && (Step(s, t).pcs[t].Insert? <==> 4 * s.counts[t] < 3 * s.tables[main].Capacity())
  {
    Always(states, moves, k);
    AllPowers(states, moves, k);
    var s := states[k];
    assert PCInRange(s, s.pcs[t]);
    Quarters(s.tables[s.pcs[t].main].Capacity());
  }

  lemma NeverOverfull(states: seq<State>, moves: seq<nat>, k: nat, h: nat, i: nat)
    requires Execution(states, moves) && k < |states| && h < |states[k].tables| && i < |states[k].tables[h].keys|
    requires states[k].tables[h].keys[i].Some?
    ensures var t := states[k].tables[h].keys[i].value;
            t < |states[k].counts| && 4 * states[k].counts[t] < 3 * states[k].tables[h].Capacity()
  {
    Always(states, moves, k);
    assert TableInv(states[k], h) && KeyInv(states[k], states[k].tables[h], i);
  }
}
