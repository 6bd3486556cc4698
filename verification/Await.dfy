/** Requests, awaits and responses over whole runs of a network of vats (src/vm.rs:185-240, 292-410).
    Any message in flight may be handled next, by the machine itself. */
module Await {
  import opened Bytes
  import opened Opcodes
  import opened Tally
  import opened Vats
  import opened VM

  // A promise: made by entity owner under the number id while it handled a request of forWhom.
  datatype Entry = Entry(owner: EntityAddress, id: nat, forWhom: Option<(EntityAddress, nat)>, answered: bool)

  // ledger and log are written alongside and decide nothing: every promise made, every response sent.
  datatype Net = Net(vats: seq<Machine>, flight: seq<Msg>, ledger: seq<Entry>, log: seq<Msg>)

  // ---- Steps ----

  /** The handler came to its end without sending anything. */
  ghost predicate Finished(m: Machine, msg: Msg, m': Machine, out: Option<Msg>) {
    && m'.promises == m.promises && m'.sent == m.sent
    && (out.Some? <==> Owes(m, msg))
  }

  /** Someone waits for an answer to this message. */
  predicate Owes(m: Machine, msg: Msg) {
    match msg.contents
    case Request(_, _, _, noResponse) => !noResponse
    case Response(_, None) => false
    case Response(_, Some(id)) => id % 256 in m.promises && m.promises[id % 256].srcPromise.Some?
  }

  /** The handler sent one message and is waiting for its result. Fewer than 256 promises were made before. */
  ghost predicate Asked(m: Machine, msg: Msg, m': Machine, out: Option<Msg>) {
    var id := |m.promises|;
    && msg.contents.Request? && out.None? && id < 256
    && m'.promises.Keys == m.promises.Keys + {id}
    && (forall k :: k in m.promises && k != id ==> m'.promises[k] == m.promises[k])
    && m'.promises[id].srcPromise == msg.contents.srcPromise && m'.promises[id].srcEntity == Some(msg.src)
    && |m'.promises[id].onResolve| == 1
    && |m'.sent| == |m.sent| + 1 && m'.sent[..|m.sent|] == m.sent
    && Asks(m'.sent[|m.sent|], msg, id)
  }

  predicate Asks(q: Msg, msg: Msg, id: nat) {
    q.src == msg.dst && q.contents.Request? && q.contents.srcPromise == Some(id) && !q.contents.noResponse
  }

  function Listed(out: Option<Msg>): seq<Msg> {
    if out.Some? then [out.value] else []
  }

  function IndexOf(ledger: seq<Entry>, vat: nat, id: nat): (k: nat)
    ensures k <= |ledger| && (k < |ledger| ==> ledger[k].owner.vat == vat && ledger[k].id == id)
  {
    if ledger == [] then 0
    else if ledger[0].owner.vat == vat && ledger[0].id == id then 0
    else IndexOf(ledger[1..], vat, id) + 1
  }

  function Recorded(ledger: seq<Entry>, m: Machine, msg: Msg, asked: bool): seq<Entry> {
    match msg.contents
    case Request(_, _, srcPromise, _) =>
      var forWhom := if srcPromise.Some? then Some((msg.src, srcPromise.value)) else None;
      if asked then ledger + [Entry(msg.dst, |m.promises|, forWhom, false)] else ledger
    case Response(_, None) => ledger
    case Response(_, Some(id)) =>
      var k := IndexOf(ledger, msg.dst.vat, id % 256);
      if k < |ledger| then ledger[k := ledger[k].(answered := true)] else ledger
  }

  function Deliver(s: Net, i: nat, m': Machine, out: Option<Msg>): Net
    requires i < |s.flight| && s.flight[i].dst.vat < |s.vats|
  {
    var msg := s.flight[i];
    var asked := m'.sent != [];
    Net(s.vats[msg.dst.vat := m'.(sent := [])],
        s.flight[..i] + s.flight[i + 1..] + (m'.sent + Listed(out)),
        Recorded(s.ledger, s.vats[msg.dst.vat], msg, asked),
        s.log + Listed(out))
  }

  /** Message i is handled by the machine, within fuel instructions, by a disciplined handler. */
  ghost predicate NetStep(code: seq<byte>, s: Net, i: nat, fuel: nat, s': Net) {
    && i < |s.flight| && s.flight[i].dst.vat < |s.vats|
    && var m, msg := s.vats[s.flight[i].dst.vat], s.flight[i];
       match Handle(code, m, msg, fuel)
       case Some(Handled(m', out)) =>
         && (Finished(m, msg, m', out) || Asked(m, msg, m', out))
         && s' == Deliver(s, i, m', out)
       case _ => false
  }

  // ---- The invariant ----

  function One(b: bool): int {
    if b then 1 else 0
  }

  function IsRequest(vat: nat, id: nat): Msg -> int {
    (q: Msg) => One(q.contents.Request? && q.contents.srcPromise == Some(id) && q.src.vat == vat)
  }

  function IsResponse(vat: nat, id: nat): Msg -> int {
    (q: Msg) => One(q.contents.Response? && q.contents.dstPromise == Some(id) && q.dst.vat == vat)
  }

  function IsPromise(vat: nat, id: nat): Entry -> int {
    (e: Entry) => One(e.owner.vat == vat && e.id == id)
  }

  function IsAnswered(vat: nat, id: nat): Entry -> int {
    (e: Entry) => One(e.answered && e.owner.vat == vat && e.id == id)
  }

  /** A handler that will answer promise id of the vat is suspended. */
  function IsWaiting(vat: nat, id: nat): Entry -> int {
    (e: Entry) => One(!e.answered && e.forWhom.Some? && e.forWhom.value.0.vat == vat && e.forWhom.value.1 == id)
  }

  function Witnesses(s: Net, vat: nat, id: nat): int {
    Total(IsRequest(vat, id), s.flight) + Total(IsResponse(vat, id), s.flight)
    + Total(IsWaiting(vat, id), s.ledger) + Total(IsAnswered(vat, id), s.ledger)
  }

  /** Every promise has exactly one witness: its request, the handler of its request, its response,
      or having been answered. */
  ghost predicate KeyInv(s: Net, vat: nat, id: nat) {
    && Witnesses(s, vat, id) == Total(IsPromise(vat, id), s.ledger) <= 1
    && Total(IsResponse(vat, id), s.log) == Total(IsResponse(vat, id), s.flight) + Total(IsAnswered(vat, id), s.ledger)
  }

  /** The address belongs to the promise, if there is one. */
  ghost predicate Addresses(ledger: seq<Entry>, a: EntityAddress, id: nat) {
    forall k :: 0 <= k < |ledger| && ledger[k].owner.vat == a.vat && ledger[k].id == id ==> ledger[k].owner == a
  }

  ghost predicate MsgInv(s: Net, q: Msg) {
    match q.contents
    case Request(_, _, Some(id), noResponse) => !noResponse && Addresses(s.ledger, q.src, id)
    case Response(_, Some(id)) => Addresses(s.ledger, q.dst, id)
    case _ => true
  }

  /** What the vat holds for a promise is what the ledger says. */
  ghost predicate EntryInv(s: Net, e: Entry) {
    && e.owner.vat < |s.vats| && e.id < 256 && e.id in s.vats[e.owner.vat].promises
    && (var p := s.vats[e.owner.vat].promises[e.id];
        && |p.onResolve| == 1
        && p.srcPromise == (if e.forWhom.Some? then Some(e.forWhom.value.1) else None)
        && (e.forWhom.Some? ==> p.srcEntity == Some(e.forWhom.value.0)))
    && (!e.answered && e.forWhom.Some? ==> Addresses(s.ledger, e.forWhom.value.0, e.forWhom.value.1))
  }

  ghost predicate VatInv(m: Machine) {
    m.sent == [] && forall id: nat :: id in m.promises <==> id < |m.promises|
  }

  ghost predicate Inv(s: Net) {
    && (forall vat, id :: KeyInv(s, vat, id))
    && (forall i :: 0 <= i < |s.flight| ==> MsgInv(s, s.flight[i]))
    && (forall k :: 0 <= k < |s.ledger| ==> EntryInv(s, s.ledger[k]))
    && (forall v :: 0 <= v < |s.vats| ==> VatInv(s.vats[v]))
  }

  /** No promises yet; the first messages carry none. */
  ghost predicate Init(s: Net) {
    && s.ledger == [] && s.log == []
    && (forall v :: 0 <= v < |s.vats| ==> s.vats[v].promises == map[] && s.vats[v].sent == [])
    && (forall i :: 0 <= i < |s.flight| ==> s.flight[i].contents.Request? && s.flight[i].contents.srcPromise.None?)
  }

  lemma InitInv(s: Net)
    requires Init(s)
    ensures Inv(s)
  {
    forall vat, id
      ensures KeyInv(s, vat, id)
    {
      TotalZero(IsRequest(vat, id), s.flight);
      TotalZero(IsResponse(vat, id), s.flight);
    }
    forall v | 0 <= v < |s.vats|
      ensures VatInv(s.vats[v])
    {
      assert |s.vats[v].promises| == 0;
    }
  }

  // ---- What the machine can send back ----

  lemma RequestShape(code: seq<byte>, m: Machine, msg: Msg, fuel: nat, m': Machine, out: Option<Msg>)
    requires msg.contents.Request? && Handle(code, m, msg, fuel) == Some(Handled(m', out))
    ensures out.Some? ==>
              && out.value.dst == msg.src
              && out.value.contents.Response? && out.value.contents.dstPromise == msg.contents.srcPromise
  {
    hide FunctionTable, Evaluate;
  }

  lemma ResponseShape(code: seq<byte>, m: Machine, msg: Msg, fuel: nat, m': Machine, out: Option<Msg>, p: PromiseState)
    requires msg.contents.Response? && Handle(code, m, msg, fuel) == Some(Handled(m', out))
    requires msg.contents.dstPromise.Some? && msg.contents.dstPromise.value % 256 in m.promises
    requires p == m.promises[msg.contents.dstPromise.value % 256] && |p.onResolve| == 1
    ensures out.Some? ==>
              && p.srcPromise.Some? && p.srcEntity.Some? && out.value.dst == p.srcEntity.value
              && out.value.contents.Response? && out.value.contents.dstPromise == p.srcPromise
  {
    hide Evaluate, ResumeAt, Forward;
    var ended := ResumeAt(code, m, msg, p, p.onResolve[0], fuel);
    assert p.onResolve[1..] == [];
    if ended.Some? && Forward(msg, p, ended.value, None).Handled? {
      var h := Forward(msg, p, ended.value, None);
      assert ResumeAll(code, h.m, msg, p, [], h.out, fuel) == Some(h);
      ForwardShape(msg, p, ended.value);
    }
  }

  lemma ForwardShape(msg: Msg, p: PromiseState, ended: Ended)
    requires Forward(msg, p, ended, None).Handled?
    ensures var out := Forward(msg, p, ended, None).out;
            out.Some? ==>
              && p.srcPromise.Some? && p.srcEntity.Some? && out.value.dst == p.srcEntity.value
              && out.value.contents.Response? && out.value.contents.dstPromise == p.srcPromise
  {
  }

  // ---- Each kind of step keeps the invariant ----

  lemma FlightTotal(f: Msg -> int, flight: seq<Msg>, i: nat, more: seq<Msg>)
    requires i < |flight|
    ensures Total(f, flight[..i] + flight[i + 1..] + more) == Total(f, flight) - f(flight[i]) + Total(f, more)
  {
    hide Total;
    assert flight == flight[..i] + flight[i..] && flight[i..] == [flight[i]] + flight[i + 1..];
    TotalConcat(f, flight[..i], flight[i..]);
    TotalConcat(f, [flight[i]], flight[i + 1..]);
    TotalConcat(f, flight[..i], flight[i + 1..]);
    TotalConcat(f, flight[..i] + flight[i + 1..], more);
    TotalOne(f, flight[i]);
  }

  lemma TotalOne<T>(f: T -> int, x: T)
    ensures Total(f, [x]) == f(x) && Total(f, []) == 0
  {
    assert [x][1..] == [];
  }

  /** A promise not in the ledger is mentioned nowhere. */
  lemma Unmade(s: Net, vat: nat, id: nat)
    requires KeyInv(s, vat, id) && forall k :: 0 <= k < |s.ledger| ==> IsPromise(vat, id)(s.ledger[k]) == 0
    ensures Witnesses(s, vat, id) == 0
    ensures forall i :: 0 <= i < |s.flight| ==> IsRequest(vat, id)(s.flight[i]) == 0 && IsResponse(vat, id)(s.flight[i]) == 0
    ensures forall k :: 0 <= k < |s.ledger| ==> IsWaiting(vat, id)(s.ledger[k]) == 0
  {
    hide Total;
    TotalZero(IsPromise(vat, id), s.ledger);
    TotalNonNegative(IsRequest(vat, id), s.flight);
    TotalNonNegative(IsResponse(vat, id), s.flight);
    TotalNonNegative(IsWaiting(vat, id), s.ledger);
    TotalNonNegative(IsAnswered(vat, id), s.ledger);
    forall i | 0 <= i < |s.flight|
      ensures IsRequest(vat, id)(s.flight[i]) == 0 && IsResponse(vat, id)(s.flight[i]) == 0
    {
      TotalCovers(IsRequest(vat, id), s.flight, i);
      TotalCovers(IsResponse(vat, id), s.flight, i);
    }
    forall k | 0 <= k < |s.ledger|
      ensures IsWaiting(vat, id)(s.ledger[k]) == 0
    {
      TotalCovers(IsWaiting(vat, id), s.ledger, k);
    }
  }

  /** A number the vat has not given out yet. */
  lemma NextUnmade(s: Net, vat: nat)
    requires Inv(s) && vat < |s.vats|
    ensures var id := |s.vats[vat].promises|;
            && (forall k :: 0 <= k < |s.ledger| ==> IsPromise(vat, id)(s.ledger[k]) == 0)
            && Witnesses(s, vat, id) == 0
            && (forall i :: 0 <= i < |s.flight| ==> IsRequest(vat, id)(s.flight[i]) == 0 && IsResponse(vat, id)(s.flight[i]) == 0)
            && (forall k :: 0 <= k < |s.ledger| ==> IsWaiting(vat, id)(s.ledger[k]) == 0)
  {
    var id := |s.vats[vat].promises|;
    assert VatInv(s.vats[vat]) && id !in s.vats[vat].promises;
    assert KeyInv(s, vat, id);
    hide KeyInv, Witnesses, VatInv, Addresses, MsgInv;
    forall k | 0 <= k < |s.ledger|
      ensures IsPromise(vat, id)(s.ledger[k]) == 0
    {
      assert EntryInv(s, s.ledger[k]);
    }
    Unmade(s, vat, id);
  }

  // Finishing a request.

  ghost predicate Finishing(s: Net, i: nat, m': Machine, out: Option<Msg>) {
    && i < |s.flight| && s.flight[i].dst.vat < |s.vats| && MsgInv(s, s.flight[i])
    && s.flight[i].contents.Request? && m'.sent == [] && (out.Some? <==> !s.flight[i].contents.noResponse)
    && (out.Some? ==> out.value.dst == s.flight[i].src && out.value.contents.Response?
                      && out.value.contents.dstPromise == s.flight[i].contents.srcPromise)
  }

  lemma FinishKey(s: Net, i: nat, m': Machine, out: Option<Msg>, vat: nat, id: nat)
    requires Finishing(s, i, m', out) && KeyInv(s, vat, id)
    ensures KeyInv(Deliver(s, i, m', out), vat, id)
  {
    hide Total, Addresses;
    var more := m'.sent + Listed(out);
    FlightTotal(IsRequest(vat, id), s.flight, i, more);
    FlightTotal(IsResponse(vat, id), s.flight, i, more);
    TotalConcat(IsResponse(vat, id), s.log, Listed(out));
    assert more == Listed(out);
    if out.Some? {
      TotalOne(IsRequest(vat, id), out.value);
      TotalOne(IsResponse(vat, id), out.value);
    } else {
      TotalOne(IsRequest(vat, id), s.flight[i]);
      TotalOne(IsResponse(vat, id), s.flight[i]);
    }
  }

  lemma FinishKeys(s: Net, i: nat, m': Machine, out: Option<Msg>)
    requires Finishing(s, i, m', out) && forall vat, id :: KeyInv(s, vat, id)
    ensures forall vat, id :: KeyInv(Deliver(s, i, m', out), vat, id)
  {
    hide KeyInv, Deliver, Finishing;
    assert i < |s.flight| && s.flight[i].dst.vat < |s.vats| by { FinishingFits(s, i, m', out); }
    forall vat, id
      ensures KeyInv(Deliver(s, i, m', out), vat, id)
    {
      FinishKey(s, i, m', out, vat, id);
    }
  }

  lemma FinishingFits(s: Net, i: nat, m': Machine, out: Option<Msg>)
    requires Finishing(s, i, m', out)
    ensures i < |s.flight| && s.flight[i].dst.vat < |s.vats|
  {
  }

  lemma StepFinish(code: seq<byte>, s: Net, i: nat, fuel: nat, m': Machine, out: Option<Msg>)
    requires Inv(s) && i < |s.flight| && s.flight[i].dst.vat < |s.vats| && s.flight[i].contents.Request?
    requires Handle(code, s.vats[s.flight[i].dst.vat], s.flight[i], fuel) == Some(Handled(m', out))
    requires Finished(s.vats[s.flight[i].dst.vat], s.flight[i], m', out)
    ensures Inv(Deliver(s, i, m', out))
  {
    var msg := s.flight[i];
    RequestShape(code, s.vats[msg.dst.vat], msg, fuel, m', out);
    assert VatInv(s.vats[msg.dst.vat]) && MsgInv(s, msg);
    assert Finishing(s, i, m', out);
    hide Handle, Total, KeyInv, Finishing, MsgInv, EntryInv;
    FinishKeys(s, i, m', out);
    FinishMessages(s, i, m', out);
    FinishEntries(s, i, m', out);
  }

  lemma FinishMessages(s: Net, i: nat, m': Machine, out: Option<Msg>)
    requires Inv(s) && Finishing(s, i, m', out)
    ensures i < |s.flight| && s.flight[i].dst.vat < |s.vats|
    ensures var s' := Deliver(s, i, m', out); forall j :: 0 <= j < |s'.flight| ==> MsgInv(s', s'.flight[j])
  {
    var s' := Deliver(s, i, m', out);
    hide KeyInv, EntryInv, VatInv, Addresses;
    forall j | 0 <= j < |s'.flight|
      ensures MsgInv(s', s'.flight[j])
    {
      DeliveredFrom(s, i, m'.sent + Listed(out), j);
    }
  }

  lemma FinishEntries(s: Net, i: nat, m': Machine, out: Option<Msg>)
    requires Inv(s) && Finishing(s, i, m', out) && m'.promises == s.vats[s.flight[i].dst.vat].promises
    ensures var s' := Deliver(s, i, m', out); forall k :: 0 <= k < |s'.ledger| ==> EntryInv(s', s'.ledger[k])
  {
    var s' := Deliver(s, i, m', out);
    hide KeyInv, MsgInv, VatInv, Addresses;
    forall k | 0 <= k < |s'.ledger|
      ensures EntryInv(s', s'.ledger[k])
    {
      assert EntryInv(s, s.ledger[k]);
    }
  }

  /** Every message in flight afterwards was there before or is new. */
  lemma DeliveredFrom(s: Net, i: nat, more: seq<Msg>, j: nat)
    requires i < |s.flight| && j < |s.flight[..i] + s.flight[i + 1..] + more|
    ensures var q := (s.flight[..i] + s.flight[i + 1..] + more)[j];
            (exists k :: 0 <= k < |s.flight| && s.flight[k] == q) || q in more
  {
    var q := (s.flight[..i] + s.flight[i + 1..] + more)[j];
    if j < i {
      assert s.flight[j] == q;
    } else if j < |s.flight| - 1 {
      assert s.flight[j + 1] == q;
    }
  }

  // Asking: the request leaves, its handler waits for a new promise.

  lemma AskKey(s: Net, i: nat, m': Machine, vat: nat, id: nat)
    requires i < |s.flight| && s.flight[i].dst.vat < |s.vats| && KeyInv(s, vat, id)
    requires var msg := s.flight[i];
             && msg.contents.Request? && |m'.sent| == 1
             && Asks(m'.sent[0], msg, |s.vats[msg.dst.vat].promises|)
             && ((vat, id) == (msg.dst.vat as nat, |s.vats[msg.dst.vat].promises|) ==>
                   forall k :: 0 <= k < |s.ledger| ==> IsPromise(vat, id)(s.ledger[k]) == 0)
    ensures KeyInv(Deliver(s, i, m', None), vat, id)
  {
    hide Total;
    var msg, q, e := s.flight[i], m'.sent[0], Deliver(s, i, m', None).ledger[|s.ledger|];
    assert m'.sent + Listed(None) == [q] && s.log + Listed(None) == s.log;
    FlightTotal(IsRequest(vat, id), s.flight, i, [q]);
    FlightTotal(IsResponse(vat, id), s.flight, i, [q]);
    TotalOne(IsRequest(vat, id), q);
    TotalOne(IsResponse(vat, id), q);
    LedgerTotals(s.ledger, e, vat, id);
    if (vat, id) == (msg.dst.vat as nat, |s.vats[msg.dst.vat].promises|) {
      TotalZero(IsPromise(vat, id), s.ledger);
    }
  }

  lemma LedgerTotals(ledger: seq<Entry>, e: Entry, vat: nat, id: nat)
    ensures Total(IsPromise(vat, id), ledger + [e]) == Total(IsPromise(vat, id), ledger) + IsPromise(vat, id)(e)
    ensures Total(IsWaiting(vat, id), ledger + [e]) == Total(IsWaiting(vat, id), ledger) + IsWaiting(vat, id)(e)
    ensures Total(IsAnswered(vat, id), ledger + [e]) == Total(IsAnswered(vat, id), ledger) + IsAnswered(vat, id)(e)
  {
    hide Total;
    TotalConcat(IsPromise(vat, id), ledger, [e]);
    TotalConcat(IsWaiting(vat, id), ledger, [e]);
    TotalConcat(IsAnswered(vat, id), ledger, [e]);
    TotalOne(IsPromise(vat, id), e);
    TotalOne(IsWaiting(vat, id), e);
    TotalOne(IsAnswered(vat, id), e);
  }

  /** A new entry disturbs only addresses under its own key. */
  lemma AddressesGrow(ledger: seq<Entry>, e: Entry, a: EntityAddress, id: nat)
    requires Addresses(ledger, a, id) && ((e.owner.vat, e.id) == (a.vat, id) ==> e.owner == a)
    ensures Addresses(ledger + [e], a, id)
  {
  }

  lemma StepAsk(s: Net, i: nat, m': Machine)
    requires Inv(s) && i < |s.flight| && s.flight[i].dst.vat < |s.vats|
    requires Asked(s.vats[s.flight[i].dst.vat], s.flight[i], m', None)
    ensures Inv(Deliver(s, i, m', None))
  {
    hide Handle, Total, KeyInv, Witnesses, Addresses;
    var msg, s' := s.flight[i], Deliver(s, i, m', None);
    var m, q, vat := s.vats[msg.dst.vat], m'.sent[0], msg.dst.vat;
    assert VatInv(m) && MsgInv(s, msg);
    NextUnmade(s, vat);
    forall vat', id'
      ensures KeyInv(s', vat', id')
    {
      assert KeyInv(s, vat', id');
      AskKey(s, i, m', vat', id');
    }
    assert VatInv(s'.vats[vat]) by {
      assert |m'.promises.Keys| == |m.promises.Keys| + 1;
    }
    AskMessages(s, i, m');
    AskEntries(s, i, m');
  }

  lemma AskMessages(s: Net, i: nat, m': Machine)
    requires Inv(s) && i < |s.flight| && s.flight[i].dst.vat < |s.vats|
    requires Asked(s.vats[s.flight[i].dst.vat], s.flight[i], m', None)
    ensures var s' := Deliver(s, i, m', None); forall j :: 0 <= j < |s'.flight| ==> MsgInv(s', s'.flight[j])
  {
    var msg, s' := s.flight[i], Deliver(s, i, m', None);
    var vat, e := msg.dst.vat, s'.ledger[|s.ledger|];
    assert VatInv(s.vats[vat]);
    NextUnmade(s, vat);
    hide Handle, Total, KeyInv, Witnesses, Addresses, EntryInv, VatInv;
    forall j | 0 <= j < |s'.flight|
      ensures MsgInv(s', s'.flight[j])
    {
      DeliveredFrom(s, i, m'.sent + Listed(None), j);
      var r := s'.flight[j];
      if r == m'.sent[0] {
        AddressesNew(s.ledger, e);
      } else {
        var k: nat :| k < |s.flight| && s.flight[k] == r;
        assert MsgInv(s, r) && IsRequest(vat, e.id)(r) == 0 && IsResponse(vat, e.id)(r) == 0;
        if r.contents.Request? && r.contents.srcPromise.Some? {
          AddressesGrow(s.ledger, e, r.src, r.contents.srcPromise.value);
        } else if r.contents.Response? && r.contents.dstPromise.Some? {
          AddressesGrow(s.ledger, e, r.dst, r.contents.dstPromise.value);
        }
      }
    }
  }

  lemma AddressesNew(ledger: seq<Entry>, e: Entry)
    requires forall k :: 0 <= k < |ledger| ==> IsPromise(e.owner.vat, e.id)(ledger[k]) == 0
    ensures Addresses(ledger + [e], e.owner, e.id)
  {
    forall k | 0 <= k < |ledger|
      ensures !(ledger[k].owner.vat == e.owner.vat && ledger[k].id == e.id)
    {
      assert IsPromise(e.owner.vat, e.id)(ledger[k]) == 0;
    }
  }

  lemma AskEntries(s: Net, i: nat, m': Machine)
    requires Inv(s) && i < |s.flight| && s.flight[i].dst.vat < |s.vats|
    requires Asked(s.vats[s.flight[i].dst.vat], s.flight[i], m', None)
    ensures var s' := Deliver(s, i, m', None); forall k :: 0 <= k < |s'.ledger| ==> EntryInv(s', s'.ledger[k])
  {
    var msg, s' := s.flight[i], Deliver(s, i, m', None);
    var vat, e := msg.dst.vat, s'.ledger[|s.ledger|];
    assert VatInv(s.vats[vat]) && MsgInv(s, msg);
    NextUnmade(s, vat);
    assert IsRequest(vat, e.id)(msg) == 0;
    hide Handle, Total, KeyInv, Witnesses, Addresses, VatInv;
    forall k | 0 <= k < |s'.ledger|
      ensures EntryInv(s', s'.ledger[k])
    {
      var f := s'.ledger[k];
      if k < |s.ledger| {
        assert f == s.ledger[k] && EntryInv(s, f) && IsWaiting(vat, e.id)(f) == 0 && IsPromise(vat, e.id)(f) == 0;
      }
      if !f.answered && f.forWhom.Some? {
        AddressesGrow(s.ledger, e, f.forWhom.value.0, f.forWhom.value.1);
      }
    }
  }

  // A response: its promise is answered, the handler that waited for it goes on and answers in turn.

  lemma IndexFound(ledger: seq<Entry>, vat: nat, id: nat)
    requires Total(IsPromise(vat, id), ledger) > 0
    ensures IndexOf(ledger, vat, id) < |ledger|
  {
    var k := TotalWitness(IsPromise(vat, id), ledger);
    IndexBound(ledger, vat, id, k);
  }

  lemma {:induction false} IndexBound(ledger: seq<Entry>, vat: nat, id: nat, k: nat)
    requires k < |ledger| && ledger[k].owner.vat == vat && ledger[k].id == id
    ensures IndexOf(ledger, vat, id) <= k
  {
    if k > 0 {
      IndexBound(ledger[1..], vat, id, k - 1);
    }
  }

  /** Its promise is in the ledger and not yet answered. */
  lemma AnswerDue(s: Net, i: nat) returns (k: nat)
    requires Inv(s) && i < |s.flight| && s.flight[i].contents.Response? && s.flight[i].contents.dstPromise.Some?
    ensures k < |s.ledger| && !s.ledger[k].answered && EntryInv(s, s.ledger[k])
    ensures s.ledger[k].owner == s.flight[i].dst && s.ledger[k].id == s.flight[i].contents.dstPromise.value < 256
    ensures k == IndexOf(s.ledger, s.flight[i].dst.vat, s.flight[i].contents.dstPromise.value)
  {
    var vat, id := s.flight[i].dst.vat, s.flight[i].contents.dstPromise.value;
    assert KeyInv(s, vat, id) && MsgInv(s, s.flight[i]);
    hide Total, EntryInv, VatInv;
    TotalCovers(IsResponse(vat, id), s.flight, i);
    TotalNonNegative(IsRequest(vat, id), s.flight);
    TotalNonNegative(IsWaiting(vat, id), s.ledger);
    TotalNonNegative(IsAnswered(vat, id), s.ledger);
    IndexFound(s.ledger, vat, id);
    k := IndexOf(s.ledger, vat, id);
    TotalCovers(IsAnswered(vat, id), s.ledger, k);
    assert EntryInv(s, s.ledger[k]);
    EntrySmall(s, s.ledger[k]);
  }

  lemma EntrySmall(s: Net, e: Entry)
    requires EntryInv(s, e)
    ensures e.id < 256
  {
  }

  /** The response at i is for entry k, and out is what its handler owes in turn. */
  ghost predicate Answering(s: Net, i: nat, k: nat, m': Machine, out: Option<Msg>) {
    && i < |s.flight| && s.flight[i].dst.vat < |s.vats| && m'.sent == []
    && s.flight[i].contents.Response? && k < |s.ledger| && !s.ledger[k].answered
    && s.flight[i].contents.dstPromise == Some(s.ledger[k].id) && s.ledger[k].owner == s.flight[i].dst
    && s.ledger[k].id < 256 && k == IndexOf(s.ledger, s.flight[i].dst.vat, s.ledger[k].id)
    && (out.Some? <==> s.ledger[k].forWhom.Some?)
    && (out.Some? ==> out.value.contents.Response? && out.value.dst == s.ledger[k].forWhom.value.0
                      && out.value.contents.dstPromise == Some(s.ledger[k].forWhom.value.1))
  }

  lemma AnswerDelivers(s: Net, i: nat, k: nat, m': Machine, out: Option<Msg>)
    requires Answering(s, i, k, m', out)
    ensures i < |s.flight| && s.flight[i].dst.vat < |s.vats| && k < |s.ledger|
    ensures var s' := Deliver(s, i, m', out);
            && s'.flight == s.flight[..i] + s.flight[i + 1..] + Listed(out)
            && s'.ledger == s.ledger[k := s.ledger[k].(answered := true)]
            && s'.log == s.log + Listed(out)
  {
    hide Total, MsgInv, EntryInv, KeyInv, Addresses;
    assert m'.sent + Listed(out) == Listed(out);
  }

  lemma AnswerTotals(s: Net, i: nat, k: nat, m': Machine, out: Option<Msg>, vat: nat, id: nat)
    requires Answering(s, i, k, m', out)
    ensures var s', q, e, f := Deliver(s, i, m', out), s.flight[i], s.ledger[k], s.ledger[k].(answered := true);
            && Total(IsRequest(vat, id), s'.flight)
               == Total(IsRequest(vat, id), s.flight) - IsRequest(vat, id)(q) + (if out.Some? then IsRequest(vat, id)(out.value) else 0)
            && Total(IsResponse(vat, id), s'.flight)
               == Total(IsResponse(vat, id), s.flight) - IsResponse(vat, id)(q) + (if out.Some? then IsResponse(vat, id)(out.value) else 0)
            && Total(IsResponse(vat, id), s'.log)
               == Total(IsResponse(vat, id), s.log) + (if out.Some? then IsResponse(vat, id)(out.value) else 0)
            && Total(IsPromise(vat, id), s'.ledger) == Total(IsPromise(vat, id), s.ledger)
            && Total(IsWaiting(vat, id), s'.ledger) == Total(IsWaiting(vat, id), s.ledger) - IsWaiting(vat, id)(e)
            && Total(IsAnswered(vat, id), s'.ledger) == Total(IsAnswered(vat, id), s.ledger) + IsAnswered(vat, id)(f)
  {
    AnswerDelivers(s, i, k, m', out);
    hide Total, Deliver, Listed;
    var e := s.ledger[k].(answered := true);
    FlightTotal(IsRequest(vat, id), s.flight, i, Listed(out));
    FlightTotal(IsResponse(vat, id), s.flight, i, Listed(out));
    TotalConcat(IsResponse(vat, id), s.log, Listed(out));
    TotalUpdate(IsPromise(vat, id), s.ledger, k, e);
    TotalUpdate(IsWaiting(vat, id), s.ledger, k, e);
    TotalUpdate(IsAnswered(vat, id), s.ledger, k, e);
    TotalListed(IsRequest(vat, id), out);
    TotalListed(IsResponse(vat, id), out);
  }

  /** The promise answered loses its response and is answered; the promise of whoever the handler
      worked for loses its waiting handler and has a response. */
  lemma AnswerShares(s: Net, i: nat, k: nat, m': Machine, out: Option<Msg>, vat: nat, id: nat)
    requires Answering(s, i, k, m', out)
    ensures var q, e, f := s.flight[i], s.ledger[k], s.ledger[k].(answered := true);
            && IsRequest(vat, id)(q) == 0 && IsResponse(vat, id)(q) == IsAnswered(vat, id)(f)
            && IsWaiting(vat, id)(e) == (if out.Some? then IsResponse(vat, id)(out.value) else 0)
            && (out.Some? ==> IsRequest(vat, id)(out.value) == 0)
  {
    hide IndexOf, MsgInv;
  }

  lemma AnswerKey(s: Net, i: nat, k: nat, m': Machine, out: Option<Msg>, vat: nat, id: nat)
    requires Answering(s, i, k, m', out) && KeyInv(s, vat, id)
    ensures i < |s.flight| && s.flight[i].dst.vat < |s.vats| && KeyInv(Deliver(s, i, m', out), vat, id)
  {
    AnswerTotals(s, i, k, m', out, vat, id);
    AnswerShares(s, i, k, m', out, vat, id);
    AnswerDelivers(s, i, k, m', out);
    hide Total, Deliver, Answering, IsRequest, IsResponse, IsWaiting, IsAnswered, IsPromise;
  }

  lemma TotalListed(f: Msg -> int, out: Option<Msg>)
    ensures Total(f, Listed(out)) == if out.Some? then f(out.value) else 0
  {
    hide Total;
    if out.Some? {
      TotalOne(f, out.value);
    } else {
      TotalZero(f, Listed(out));
    }
  }

  lemma AnswerFits(code: seq<byte>, s: Net, i: nat, fuel: nat, m': Machine, out: Option<Msg>) returns (k: nat)
    requires Inv(s) && i < |s.flight| && s.flight[i].dst.vat < |s.vats|
    requires s.flight[i].contents.Response? && s.flight[i].contents.dstPromise.Some?
    requires Handle(code, s.vats[s.flight[i].dst.vat], s.flight[i], fuel) == Some(Handled(m', out))
    requires Finished(s.vats[s.flight[i].dst.vat], s.flight[i], m', out)
    ensures Answering(s, i, k, m', out)
  {
    hide Handle, KeyInv, MsgInv, Addresses, IndexOf;
    k := AnswerDue(s, i);
    var m := s.vats[s.flight[i].dst.vat];
    assert VatInv(m) && EntryInv(s, s.ledger[k]);
    ResponseShape(code, m, s.flight[i], fuel, m', out, m.promises[s.ledger[k].id]);
  }

  lemma StepAnswer(code: seq<byte>, s: Net, i: nat, fuel: nat, m': Machine, out: Option<Msg>)
    requires Inv(s) && i < |s.flight| && s.flight[i].dst.vat < |s.vats|
    requires s.flight[i].contents.Response? && s.flight[i].contents.dstPromise.Some?
    requires Handle(code, s.vats[s.flight[i].dst.vat], s.flight[i], fuel) == Some(Handled(m', out))
    requires Finished(s.vats[s.flight[i].dst.vat], s.flight[i], m', out)
    ensures Inv(Deliver(s, i, m', out))
  {
    var s' := Deliver(s, i, m', out);
    assert VatInv(s.vats[s.flight[i].dst.vat]);
    var k := AnswerFits(code, s, i, fuel, m', out);
    hide Handle, KeyInv, MsgInv, EntryInv, Answering;
    forall vat, id
      ensures KeyInv(s', vat, id)
    {
      AnswerKey(s, i, k, m', out, vat, id);
    }
    AnswerMessages(s, i, k, m', out);
    AnswerEntries(s, i, k, m', out);
  }

  lemma AnswerMessages(s: Net, i: nat, k: nat, m': Machine, out: Option<Msg>)
    requires Inv(s) && Answering(s, i, k, m', out)
    ensures var s' := Deliver(s, i, m', out); forall j :: 0 <= j < |s'.flight| ==> MsgInv(s', s'.flight[j])
  {
    var s' := Deliver(s, i, m', out);
    assert EntryInv(s, s.ledger[k]);
    hide KeyInv, IndexOf, Addresses, EntryInv, VatInv;
    AddressesSame(s.ledger, k);
    forall j | 0 <= j < |s'.flight|
      ensures MsgInv(s', s'.flight[j])
    {
      DeliveredFrom(s, i, m'.sent + Listed(out), j);
      assert m'.sent + Listed(out) == Listed(out);
      var q := s'.flight[j];
      if q in Listed(out) {
        assert q == out.value;
      } else {
        assert MsgInv(s, q);
      }
    }
  }

  lemma AnswerEntries(s: Net, i: nat, k: nat, m': Machine, out: Option<Msg>)
    requires Inv(s) && Answering(s, i, k, m', out)
    requires m'.promises == s.vats[s.flight[i].dst.vat].promises
    ensures var s' := Deliver(s, i, m', out); forall l :: 0 <= l < |s'.ledger| ==> EntryInv(s', s'.ledger[l])
  {
    var s' := Deliver(s, i, m', out);
    hide KeyInv, IndexOf, Addresses, MsgInv, VatInv;
    AddressesSame(s.ledger, k);
    forall l | 0 <= l < |s'.ledger|
      ensures EntryInv(s', s'.ledger[l])
    {
      assert EntryInv(s, s.ledger[l]);
    }
  }

  /** Answering changes no owner. */
  lemma AddressesSame(ledger: seq<Entry>, k: nat)
    requires k < |ledger|
    ensures forall a, id :: Addresses(ledger, a, id) ==> Addresses(ledger[k := ledger[k].(answered := true)], a, id)
  {
  }

  /** A response without a promise is dropped. */
  lemma StepDrop(code: seq<byte>, s: Net, i: nat, fuel: nat, m': Machine, out: Option<Msg>)
    requires Inv(s) && i < |s.flight| && s.flight[i].dst.vat < |s.vats|
    requires s.flight[i].contents.Response? && s.flight[i].contents.dstPromise.None?
    requires Handle(code, s.vats[s.flight[i].dst.vat], s.flight[i], fuel) == Some(Handled(m', out))
    ensures Inv(Deliver(s, i, m', out))
  {
    var msg, s' := s.flight[i], Deliver(s, i, m', out);
    assert out == None && m' == s.vats[msg.dst.vat];
    hide Handle, Total, Addresses;
    assert VatInv(s.vats[msg.dst.vat]) && m'.sent + Listed(out) == [] && s.log + Listed(out) == s.log;
    forall vat, id
      ensures KeyInv(s', vat, id)
    {
      assert KeyInv(s, vat, id);
      FlightTotal(IsRequest(vat, id), s.flight, i, []);
      FlightTotal(IsResponse(vat, id), s.flight, i, []);
      TotalOne(IsRequest(vat, id), msg);
      TotalOne(IsResponse(vat, id), msg);
    }
    forall j | 0 <= j < |s'.flight|
      ensures MsgInv(s', s'.flight[j])
    {
      DeliveredFrom(s, i, [], j);
    }
    forall k | 0 <= k < |s'.ledger|
      ensures EntryInv(s', s'.ledger[k])
    {
      assert EntryInv(s, s.ledger[k]);
    }
  }

  lemma StepInv(code: seq<byte>, s: Net, i: nat, fuel: nat, s': Net)
    requires Inv(s) && NetStep(code, s, i, fuel, s')
    ensures Inv(s')
  {
    hide Inv, Deliver;
    var msg := s.flight[i];
    var m := s.vats[msg.dst.vat];
    var h := Handle(code, m, msg, fuel).value;
    if Asked(m, msg, h.m, h.out) {
      StepAsk(s, i, h.m);
    } else if msg.contents.Request? {
      StepFinish(code, s, i, fuel, h.m, h.out);
    } else if msg.contents.dstPromise.Some? {
      StepAnswer(code, s, i, fuel, h.m, h.out);
    } else {
      StepDrop(code, s, i, fuel, h.m, h.out);
    }
  }

  // ---- Whole runs ----

  ghost predicate Execution(code: seq<byte>, states: seq<Net>, moves: seq<(nat, nat)>) {
    && |states| == |moves| + 1 && Init(states[0])
    && (forall k :: 0 <= k < |moves| ==> Follows(code, states[k], moves[k], states[k + 1]))
  }

  ghost predicate Follows(code: seq<byte>, s: Net, move: (nat, nat), s': Net) {
    NetStep(code, s, move.0, move.1, s')
  }

  lemma {:induction false} Always(code: seq<byte>, states: seq<Net>, moves: seq<(nat, nat)>, k: nat)
    requires Execution(code, states, moves) && k < |states|
    ensures Inv(states[k])
  {
    hide Inv, Init, NetStep;
    if k == 0 {
      InitInv(states[0]);
    } else {
      Always(code, states, moves, k - 1);
      assert Follows(code, states[k - 1], moves[k - 1], states[k]);
      StepInv(code, states[k - 1], moves[k - 1].0, moves[k - 1].1, states[k]);
    }
  }

  predicate SamePromise(q: Msg, r: Msg) {
    && q.contents.Response? && q.contents.dstPromise.Some?
    && r.contents.Response? && r.contents.dstPromise == q.contents.dstPromise && r.dst.vat == q.dst.vat
  }

  /** However messages interleave, no promise is ever answered twice: of all responses sent in a run,
      no two are for the same promise of the same vat. */
  lemma AtMostOneResponse(code: seq<byte>, states: seq<Net>, moves: seq<(nat, nat)>, k: nat, i: nat, j: nat)
    requires Execution(code, states, moves) && k < |states| && i < j < |states[k].log|
    ensures !SamePromise(states[k].log[i], states[k].log[j])
  {
    Always(code, states, moves, k);
    var s, q := states[k], states[k].log[i];
    if q.contents.Response? && q.contents.dstPromise.Some? {
      var vat, id := q.dst.vat, q.contents.dstPromise.value;
      assert KeyInv(s, vat, id);
      hide Total, Inv;
      TotalCoversPair(IsResponse(vat, id), s.log, i, j);
      TotalNonNegative(IsRequest(vat, id), s.flight);
      TotalNonNegative(IsWaiting(vat, id), s.ledger);
    }
  }

  /** A response in flight goes to the entity whose request made the promise, under that promise's number,
      and that promise is still open. */
  lemma ResponseIsAddressed(code: seq<byte>, states: seq<Net>, moves: seq<(nat, nat)>, k: nat, i: nat) returns (e: Entry)
    requires Execution(code, states, moves) && k < |states| && i < |states[k].flight|
    requires states[k].flight[i].contents.Response? && states[k].flight[i].contents.dstPromise.Some?
    ensures e in states[k].ledger && !e.answered
    ensures e.owner == states[k].flight[i].dst && states[k].flight[i].contents.dstPromise == Some(e.id)
  {
    Always(code, states, moves, k);
    var l := AnswerDue(states[k], i);
    e := states[k].ledger[l];
  }

  /** No answer is lost: an open promise has its request or its response in flight, or a suspended handler. */
  lemma NothingLost(code: seq<byte>, states: seq<Net>, moves: seq<(nat, nat)>, k: nat, l: nat)
    requires Execution(code, states, moves) && k < |states| && l < |states[k].ledger| && !states[k].ledger[l].answered
    ensures var s, vat, id := states[k], states[k].ledger[l].owner.vat, states[k].ledger[l].id;
            || (exists i :: 0 <= i < |s.flight| && (IsRequest(vat, id)(s.flight[i]) == 1 || IsResponse(vat, id)(s.flight[i]) == 1))
            || (exists j :: 0 <= j < |s.ledger| && IsWaiting(vat, id)(s.ledger[j]) == 1)
  {
    Always(code, states, moves, k);
    var s, e := states[k], states[k].ledger[l];
    var vat, id := e.owner.vat, e.id;
    assert KeyInv(s, vat, id);
    hide Total, Inv, Execution;
    TotalCovers(IsPromise(vat, id), s.ledger, l);
    if Total(IsRequest(vat, id), s.flight) > 0 {
      var i := TotalWitness(IsRequest(vat, id), s.flight);
    } else if Total(IsResponse(vat, id), s.flight) > 0 {
      var i := TotalWitness(IsResponse(vat, id), s.flight);
    } else if Total(IsWaiting(vat, id), s.ledger) > 0 {
      var j := TotalWitness(IsWaiting(vat, id), s.ledger);
    } else {
      var a := TotalWitness(IsAnswered(vat, id), s.ledger);
      TotalCoversPair(IsPromise(vat, id), s.ledger, if a < l then a else l, if a < l then l else a);
    }
  }
}
