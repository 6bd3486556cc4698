/** The hosted vat scheduler (src/hosted.rs:12-169): one main loop, any number of hotplates, and the
    channels between them. Every channel operation is one step. */
module Hosted {
  import opened Bytes
  import opened Tally

  // tag tells messages apart and decides nothing.
  datatype Msg = Msg(dst: nat, tag: nat)

  datatype Vat = Vat(id: nat, inbox: seq<Msg>, outbox: seq<Msg>)

  type Inboxes = map<nat, seq<Msg>>

  // ---- The main loop's two helpers ----

  /** Where the vat sleeps; the length if it does not. */
  function Position(sleeping: seq<Vat>, id: nat): (k: nat)
    ensures k <= |sleeping| && (k < |sleeping| ==> sleeping[k].id == id)
    ensures forall j :: 0 <= j < k ==> sleeping[j].id != id
  {
    if sleeping == [] || sleeping[0].id == id then 0 else Position(sleeping[1..], id) + 1
  }

  /** Those who go on sleeping when the vat is woken, and the vat. */
  function Wake(sleeping: seq<Vat>, id: nat): (seq<Vat>, seq<Vat>) {
    var k := Position(sleeping, id);
    if k < |sleeping| then (sleeping[..k] + sleeping[k + 1..], [sleeping[k]]) else (sleeping, [])
  }

  function File(inboxes: Inboxes, m: Msg): Inboxes
    requires m.dst in inboxes
  {
    inboxes[m.dst := inboxes[m.dst] + [m]]
  }

  /** A vat that comes back: to sleep if it has no mail, else on to a hotplate with it. */
  function Collected(cv: Vat, mail: seq<Msg>): Vat {
    cv.(inbox := cv.inbox + mail, outbox := [])
  }

  // ---- The system ----

  // Where the main loop is: at the select; draining messages, perhaps with a vat in hand; having taken
  // a message; having woken its vat; draining vats.
  datatype MainPC =
    | Selecting
    | Sorting(held: Option<Vat>)
    | Triaging(msg: Msg, held: Option<Vat>)
    | Filing(msg: Msg, held: Option<Vat>)
    | Collecting

  // A hotplate without a vat, with one, or sending what a handler or the outbox gave it to send.
  datatype Plate = Free | Running(v: Vat) | Sending(v: Vat, rest: seq<Msg>)

  datatype State = State(
    main: MainPC, sleeping: seq<Vat>, inboxes: Inboxes,
    toPlates: seq<Vat>, toMain: seq<Vat>, mail: seq<Msg>,
    plates: seq<Plate>, ids: seq<nat>,
    issued: nat, handled: seq<(Msg, nat)>)

  // Which channel the select serves; or a hotplate's next step, where a handler that runs now sends to
  // these vats and leaves messages for those in the outbox.
  datatype Move = Main(vatFirst: bool) | Hotplate(p: nat, sends: seq<nat>, keeps: seq<nat>)

  predicate CanMove(s: State, m: Move) {
    m.Hotplate? ==>
      && m.p < |s.plates|
      && (forall i :: 0 <= i < |m.sends| ==> m.sends[i] in s.ids)
      && (forall i :: 0 <= i < |m.keeps| ==> m.keeps[i] in s.ids)
  }

  function Fresh(dests: seq<nat>, first: nat): seq<Msg> {
    if dests == [] then [] else [Msg(dests[0], first)] + Fresh(dests[1..], first + 1)
  }

  function Delivered(s: State, cv: Vat, main: MainPC): State
    requires cv.id in s.inboxes
  {
    var mail := s.inboxes[cv.id];
    if mail == [] then s.(main := main, sleeping := s.sleeping + [cv])
    else s.(main := main, toPlates := s.toPlates + [Collected(cv, mail)], inboxes := s.inboxes[cv.id := cv.outbox])
  }

  function MainStep(s: State, vatFirst: bool): State {
    match s.main
    case Selecting =>
      if vatFirst && s.toMain != [] then s.(main := Sorting(Some(s.toMain[0])), toMain := s.toMain[1..])
      else if s.mail != [] then s.(main := Triaging(s.mail[0], None), mail := s.mail[1..])
      else s
    case Sorting(held) =>
      if s.mail != [] then s.(main := Triaging(s.mail[0], held), mail := s.mail[1..])
      else if held.Some? && held.value.id in s.inboxes then Delivered(s, held.value, Collecting)
      else s.(main := Collecting)
    case Triaging(msg, held) =>
      var (sleeping, woken) := Wake(s.sleeping, msg.dst);
      s.(main := Filing(msg, held), sleeping := sleeping, toPlates := s.toPlates + woken)
    case Filing(msg, held) =>
      if msg.dst in s.inboxes then s.(main := Sorting(held), inboxes := File(s.inboxes, msg)) else s
    case Collecting =>
      if s.toMain != [] && s.toMain[0].id in s.inboxes then
        Delivered(s.(toMain := s.toMain[1..]), s.toMain[0], Collecting)
      else s.(main := Selecting)
  }

  function PlateStep(s: State, p: nat, sends: seq<nat>, keeps: seq<nat>): State
    requires p < |s.plates|
  {
    match s.plates[p]
    case Free =>
      if s.toPlates == [] then s
      else s.(plates := s.plates[p := Running(s.toPlates[0])], toPlates := s.toPlates[1..])
    case Running(v) =>
      if v.inbox != [] then
        // run_msg on the newest message
        var msg := v.inbox[|v.inbox| - 1];
        var v' := v.(inbox := v.inbox[..|v.inbox| - 1], outbox := v.outbox + Fresh(keeps, s.issued + |sends|));
        s.(plates := s.plates[p := Sending(v', Fresh(sends, s.issued))],
           issued := s.issued + |sends| + |keeps|, handled := s.handled + [(msg, v.id)])
      else if v.outbox != [] then s.(plates := s.plates[p := Sending(v.(outbox := []), v.outbox)])
      else s.(plates := s.plates[p := Free], toMain := s.toMain + [v])
    case Sending(v, rest) =>
      if rest == [] then s.(plates := s.plates[p := Running(v)])
      else s.(plates := s.plates[p := Sending(v, rest[1..])], mail := s.mail + [rest[0]])
  }

  function Step(s: State, m: Move): State
    requires CanMove(s, m)
  {
    match m
    case Main(vatFirst) => MainStep(s, vatFirst)
    case Hotplate(p, sends, keeps) => PlateStep(s, p, sends, keeps)
  }

  // ---- The main loop's helpers, in place ----

  class Dispatcher {
    var sleepingVats: seq<Vat>
    var vatInboxes: Inboxes
    var hotplates: seq<Vat>  // what has been sent towards the hotplates

    /** The part of a state that is the dispatcher's. */
    function In(s: State): State
      reads this
    {
      s.(sleeping := sleepingVats, inboxes := vatInboxes, toPlates := hotplates)
    }

    /** triage_msg: two steps of the main loop. */
    method TriageMsg(msg: Msg)
      requires msg.dst in vatInboxes
      modifies this
      ensures forall s: State :: s.main.Triaging? && s.main.msg == msg ==>
                MainStep(MainStep(old(In(s)), false), false) == In(s).(main := Sorting(s.main.held))
    {
      var pos := 0;
      while pos < |sleepingVats| && sleepingVats[pos].id != msg.dst
        invariant pos <= Position(sleepingVats, msg.dst)
      {
        pos := pos + 1;
      }
      assert pos == Position(sleepingVats, msg.dst);
      assert hotplates + [] == hotplates;
      if pos < |sleepingVats| {
        hotplates := hotplates + [sleepingVats[pos]];
        sleepingVats := sleepingVats[..pos] + sleepingVats[pos + 1..];
      }
      vatInboxes := vatInboxes[msg.dst := vatInboxes[msg.dst] + [msg]];
    }

    /** deliver_mail. */
    method DeliverMail(cv: Vat)
      requires cv.id in vatInboxes
      modifies this
      ensures forall s: State, main :: Delivered(old(In(s)), cv, main) == In(s).(main := main)
    {
      if vatInboxes[cv.id] == [] {
        sleepingVats := sleepingVats + [cv];
      } else {
        var tempMsgs := vatInboxes[cv.id];
        vatInboxes := vatInboxes[cv.id := []];
        vatInboxes := vatInboxes[cv.id := vatInboxes[cv.id] + cv.outbox];
        hotplates := hotplates + [Vat(cv.id, cv.inbox + tempMsgs, [])];
        assert [] + cv.outbox == cv.outbox;
      }
    }
  }

  // ---- Counting vats ----

  function One(b: bool): int {
    if b then 1 else 0
  }

  function IsVat(id: nat): Vat -> int {
    (v: Vat) => One(v.id == id)
  }

  function PlateVat(id: nat): Plate -> int {
    (p: Plate) => if p.Free? then 0 else One(p.v.id == id)
  }

  function Held(main: MainPC): Option<Vat> {
    if main.Selecting? || main.Collecting? then None else main.held
  }

  /** In how many places the vat is. */
  function Seats(s: State, id: nat): int {
    Total(IsVat(id), s.sleeping) + Total(IsVat(id), s.toPlates) + Total(IsVat(id), s.toMain)
    + Total(PlateVat(id), s.plates)
    + (if Held(s.main).Some? then One(Held(s.main).value.id == id) else 0)
  }

  // ---- Counting copies of a message ----

  function IsTag(t: nat): Msg -> int {
    (m: Msg) => One(m.tag == t)
  }

  function InVat(t: nat): Vat -> int {
    (v: Vat) => Total(IsTag(t), v.inbox) + Total(IsTag(t), v.outbox)
  }

  function OnPlate(t: nat): Plate -> int {
    (p: Plate) =>
      match p
      case Free => 0
      case Running(v) => InVat(t)(v)
      case Sending(v, rest) => InVat(t)(v) + Total(IsTag(t), rest)
  }

  function InMain(t: nat, main: MainPC): int {
    (if Held(main).Some? then InVat(t)(Held(main).value) else 0)
    + (if main.Triaging? || main.Filing? then One(main.msg.tag == t) else 0)
  }

  function InBox(t: nat, inboxes: Inboxes): nat -> int {
    (id: nat) => if id in inboxes then Total(IsTag(t), inboxes[id]) else 0
  }

  function IsHandled(t: nat): ((Msg, nat)) -> int {
    (h: (Msg, nat)) => One(h.0.tag == t)
  }

  /** In how many places the message is, having been handled counting as one. */
  function Copies(s: State, t: nat): int {
    Total(InVat(t), s.sleeping) + Total(InVat(t), s.toPlates) + Total(InVat(t), s.toMain)
    + Total(OnPlate(t), s.plates) + InMain(t, s.main)
    + Total(IsTag(t), s.mail) + Total(InBox(t, s.inboxes), s.ids)
    + Total(IsHandled(t), s.handled)
  }

  // ---- The invariant ----

  ghost predicate MailFor(mail: seq<Msg>, id: nat) {
    forall i :: 0 <= i < |mail| ==> mail[i].dst == id
  }

  ghost predicate MailKnown(mail: seq<Msg>, ids: seq<nat>) {
    forall i :: 0 <= i < |mail| ==> mail[i].dst in ids
  }

  ghost predicate VatOk(v: Vat, ids: seq<nat>) {
    v.id in ids && MailFor(v.inbox, v.id) && MailKnown(v.outbox, ids)
  }

  /** A vat away from the hotplates has nothing left to send. */
  ghost predicate Settled(v: Vat, ids: seq<nat>) {
    VatOk(v, ids) && v.outbox == []
  }

  ghost predicate AllSettled(vs: seq<Vat>, ids: seq<nat>) {
    forall i :: 0 <= i < |vs| ==> Settled(vs[i], ids)
  }

  ghost predicate PlateOk(p: Plate, ids: seq<nat>) {
    match p
    case Free => true
    case Running(v) => VatOk(v, ids)
    case Sending(v, rest) => VatOk(v, ids) && MailKnown(rest, ids)
  }

  ghost predicate MainOk(main: MainPC, ids: seq<nat>) {
    && (Held(main).Some? ==> Settled(Held(main).value, ids))
    && (main.Triaging? || main.Filing? ==> main.msg.dst in ids)
  }

  ghost predicate Registered(ids: seq<nat>, inboxes: Inboxes) {
    && (forall i, j :: 0 <= i < j < |ids| ==> ids[i] != ids[j])
    && (forall id :: id in ids <==> id in inboxes)
  }

  /** Who is where, and that all mail is on its way to where it belongs. */
  ghost predicate Shaped(s: State) {
    && Registered(s.ids, s.inboxes)
    && AllSettled(s.sleeping, s.ids) && AllSettled(s.toPlates, s.ids) && AllSettled(s.toMain, s.ids)
    && (forall p :: 0 <= p < |s.plates| ==> PlateOk(s.plates[p], s.ids))
    && MainOk(s.main, s.ids) && MailKnown(s.mail, s.ids)
    && (forall id :: id in s.inboxes ==> MailFor(s.inboxes[id], id))
    && (forall i :: 0 <= i < |s.handled| ==> s.handled[i].0.dst == s.handled[i].1)
  }

  /** No sleeping vat has mail waiting, not even the message just being filed. */
  ghost predicate NoneForgotten(s: State) {
    && (forall i :: 0 <= i < |s.sleeping| ==> s.sleeping[i].id in s.inboxes && s.inboxes[s.sleeping[i].id] == [])
    && (s.main.Filing? ==> forall i :: 0 <= i < |s.sleeping| ==> s.sleeping[i].id != s.main.msg.dst)
  }

  /** A vat that leaves a hotplate has handled all it had. */
  ghost predicate Emptied(s: State) {
    && (forall i :: 0 <= i < |s.sleeping| ==> s.sleeping[i].inbox == [])
    && (forall i :: 0 <= i < |s.toMain| ==> s.toMain[i].inbox == [])
    && (Held(s.main).Some? ==> Held(s.main).value.inbox == [])
  }

  ghost predicate Inv(s: State) {
    && Shaped(s) && NoneForgotten(s) && Emptied(s)
    && (forall id: nat :: Seats(s, id) == One(id in s.ids))
    && (forall t: nat :: Copies(s, t) == One(t < s.issued))
  }

  /** Every vat is on its way to the main loop with nothing in it; some first messages have been sent. */
  ghost predicate Init(s: State) {
    && s.main == Selecting && s.sleeping == [] && s.toPlates == [] && s.handled == []
    && (forall p :: 0 <= p < |s.plates| ==> s.plates[p] == Free)
    && (forall i, j :: 0 <= i < j < |s.ids| ==> s.ids[i] != s.ids[j])
    && |s.toMain| == |s.ids| && (forall i :: 0 <= i < |s.ids| ==> s.toMain[i] == Vat(s.ids[i], [], []))
    && (forall id :: id in s.inboxes <==> id in s.ids) && (forall id :: id in s.inboxes ==> s.inboxes[id] == [])
    && MailKnown(s.mail, s.ids) && s.issued == |s.mail| && (forall i :: 0 <= i < |s.mail| ==> s.mail[i].tag == i)
  }

  // ---- How totals move ----

  lemma TotalSnoc<T>(f: T -> int, s: seq<T>, x: T)
    ensures Total(f, s + [x]) == Total(f, s) + f(x)
  {
    TotalConcat(f, s, [x]);
    assert Total(f, [x]) == f(x) + Total(f, []);
  }

  lemma TotalRemove<T>(f: T -> int, s: seq<T>, k: nat)
    requires k < |s|
    ensures Total(f, s[..k] + s[k + 1..]) == Total(f, s) - f(s[k])
  {
    hide Total;
    TotalConcat(f, s[..k], s[k + 1..]);
    TotalSnoc(f, s[..k], s[k]);
    TotalConcat(f, s[..k + 1], s[k + 1..]);
    assert s[..k] + [s[k]] == s[..k + 1] && s[..k + 1] + s[k + 1..] == s;
  }

  lemma TotalLast<T>(f: T -> int, s: seq<T>)
    requires s != []
    ensures Total(f, s) == Total(f, s[..|s| - 1]) + f(s[|s| - 1])
  {
    TotalSnoc(f, s[..|s| - 1], s[|s| - 1]);
    assert s[..|s| - 1] + [s[|s| - 1]] == s;
  }

  lemma {:induction false} BoxUpdate(t: nat, inboxes: Inboxes, ids: seq<nat>, id: nat, mail: seq<Msg>)
    requires forall i, j :: 0 <= i < j < |ids| ==> ids[i] != ids[j]
    requires id in inboxes
    ensures Total(InBox(t, inboxes[id := mail]), ids) ==
            Total(InBox(t, inboxes), ids)
            + if id in ids then Total(IsTag(t), mail) - Total(IsTag(t), inboxes[id]) else 0
  {
    if ids != [] {
      BoxUpdate(t, inboxes, ids[1..], id, mail);
      assert ids == [ids[0]] + ids[1..];
    }
  }

  lemma {:induction false} FreshTotal(dests: seq<nat>, first: nat, t: nat)
    ensures Total(IsTag(t), Fresh(dests, first)) == One(first <= t < first + |dests|)
  {
    if dests != [] {
      FreshTotal(dests[1..], first + 1, t);
    }
  }

  lemma {:induction false} FreshKnown(dests: seq<nat>, first: nat, ids: seq<nat>)
    requires forall i :: 0 <= i < |dests| ==> dests[i] in ids
    ensures MailKnown(Fresh(dests, first), ids)
  {
    if dests != [] {
      FreshKnown(dests[1..], first + 1, ids);
    }
  }

  // ---- Messages are conserved ----

  lemma DeliverCopies(s: State, cv: Vat, t: nat)
    requires Registered(s.ids, s.inboxes) && s.main == Collecting && cv.id in s.ids
    ensures Copies(Delivered(s, cv, Collecting), t) == Copies(s, t) + InVat(t)(cv)
  {
    hide Total;
    var mail := s.inboxes[cv.id];
    if mail == [] {
      TotalSnoc(InVat(t), s.sleeping, cv);
    } else {
      TotalSnoc(InVat(t), s.toPlates, Collected(cv, mail));
      TotalConcat(IsTag(t), cv.inbox, mail);
      TotalZero(IsTag(t), []);
      BoxUpdate(t, s.inboxes, s.ids, cv.id, cv.outbox);
    }
  }

  /** The vats the main loop may hold have an inbox. */
  lemma VatsKnown(s: State)
    requires Shaped(s)
    ensures Registered(s.ids, s.inboxes)
    ensures Held(s.main).Some? ==> Held(s.main).value.id in s.ids
    ensures s.toMain != [] ==> s.toMain[0].id in s.ids
  {
  }

  lemma ReceiveCopies(s: State, vatFirst: bool, t: nat)
    requires s.main.Selecting? || (s.main.Sorting? && (s.mail != [] || s.main.held.None?)) || (s.main.Collecting? && s.toMain == [])
    ensures Copies(MainStep(s, vatFirst), t) == Copies(s, t)
  {
    hide Total;
    if s.toMain != [] {
      TotalHead(InVat(t), s.toMain);
    }
    if s.mail != [] {
      TotalHead(IsTag(t), s.mail);
    }
  }

  lemma MainCopies(s: State, vatFirst: bool, t: nat)
    requires Shaped(s) && !s.main.Triaging? && !s.main.Filing?
    ensures Copies(MainStep(s, vatFirst), t) == Copies(s, t)
  {
    VatsKnown(s);
    hide Shaped, Total, Delivered;
    if s.main.Sorting? && s.mail == [] && s.main.held.Some? {
      DeliverCopies(s.(main := Collecting), s.main.held.value, t);
      DeliverIgnoresMain(s, s.main.held.value);
    } else if s.main.Collecting? && s.toMain != [] {
      TotalHead(InVat(t), s.toMain);
      DeliverCopies(s.(toMain := s.toMain[1..]), s.toMain[0], t);
    } else {
      ReceiveCopies(s, vatFirst, t);
    }
  }

  lemma DeliverIgnoresMain(s: State, cv: Vat)
    requires cv.id in s.inboxes
    ensures Delivered(s, cv, Collecting) == Delivered(s.(main := Collecting), cv, Collecting)
  {
  }

  lemma TotalHead<T>(f: T -> int, s: seq<T>)
    requires s != []
    ensures Total(f, s) == f(s[0]) + Total(f, s[1..])
  {
  }

  lemma TriageCopies(s: State, vatFirst: bool, t: nat)
    requires Shaped(s) && (s.main.Triaging? || s.main.Filing?)
    ensures Copies(MainStep(s, vatFirst), t) == Copies(s, t)
  {
    hide Total;
    if s.main.Triaging? {
      var k := Position(s.sleeping, s.main.msg.dst);
      if k < |s.sleeping| {
        TotalRemove(InVat(t), s.sleeping, k);
        TotalSnoc(InVat(t), s.toPlates, s.sleeping[k]);
      } else {
        assert s.toPlates + [] == s.toPlates;
      }
    } else {
      var id := s.main.msg.dst;
      BoxUpdate(t, s.inboxes, s.ids, id, s.inboxes[id] + [s.main.msg]);
      TotalSnoc(IsTag(t), s.inboxes[id], s.main.msg);
    }
  }

  /** A handler's messages are new; everything else only moves. */
  lemma PlateCopies(s: State, p: nat, sends: seq<nat>, keeps: seq<nat>, t: nat)
    requires p < |s.plates|
    ensures var s' := PlateStep(s, p, sends, keeps);
            Copies(s', t) == Copies(s, t) + One(s.issued <= t < s'.issued)
  {
    var s' := PlateStep(s, p, sends, keeps);
    TotalUpdate(OnPlate(t), s.plates, p, s'.plates[p]);
    TotalZero(IsTag(t), []);
    match s.plates[p]
    case Free =>
    case Running(v) =>
      if v.inbox != [] {
        RunCopies(s, p, sends, keeps, t);
      } else if v.outbox == [] {
        TotalSnoc(InVat(t), s.toMain, v);
      }
    case Sending(v, rest) =>
      if rest != [] {
        TotalSnoc(IsTag(t), s.mail, rest[0]);
        TotalHead(IsTag(t), rest);
      }
  }

  lemma RunCopies(s: State, p: nat, sends: seq<nat>, keeps: seq<nat>, t: nat)
    requires p < |s.plates| && s.plates[p].Running? && s.plates[p].v.inbox != []
    ensures var s' := PlateStep(s, p, sends, keeps);
            Copies(s', t) == Copies(s, t) + One(s.issued <= t < s'.issued)
  {
    hide Total;
    var v, s' := s.plates[p].v, PlateStep(s, p, sends, keeps);
    TotalUpdate(OnPlate(t), s.plates, p, s'.plates[p]);
    TotalLast(IsTag(t), v.inbox);
    TotalConcat(IsTag(t), v.outbox, Fresh(keeps, s.issued + |sends|));
    FreshTotal(sends, s.issued, t);
    FreshTotal(keeps, s.issued + |sends|, t);
    TotalSnoc(IsHandled(t), s.handled, (v.inbox[|v.inbox| - 1], v.id));
  }

  // ---- Vats are conserved ----

  lemma MainSeats(s: State, vatFirst: bool, id: nat)
    requires Shaped(s)
    ensures Seats(MainStep(s, vatFirst), id) == Seats(s, id)
  {
    VatsKnown(s);
    hide Shaped, Total, Delivered, Wake;
    if s.toMain != [] {
      TotalHead(IsVat(id), s.toMain);
    }
    match s.main
    case Selecting =>
    case Sorting(held) =>
      if s.mail == [] && held.Some? {
        DeliverSeats(s, held.value, id);
      }
    case Triaging(msg, held) =>
      WakeSeats(s, msg.dst, id);
    case Filing(_, _) =>
    case Collecting =>
      if s.toMain != [] {
        DeliverSeats(s.(toMain := s.toMain[1..]), s.toMain[0], id);
      }
  }

  lemma WakeSeats(s: State, woken: nat, id: nat)
    ensures var (sleeping, out) := Wake(s.sleeping, woken);
            Total(IsVat(id), sleeping) + Total(IsVat(id), s.toPlates + out)
            == Total(IsVat(id), s.sleeping) + Total(IsVat(id), s.toPlates)
  {
    hide Total;
    var k := Position(s.sleeping, woken);
    if k < |s.sleeping| {
      TotalRemove(IsVat(id), s.sleeping, k);
      TotalSnoc(IsVat(id), s.toPlates, s.sleeping[k]);
    } else {
      assert s.toPlates + [] == s.toPlates;
    }
  }

  lemma DeliverSeats(s: State, cv: Vat, id: nat)
    requires cv.id in s.inboxes
    ensures var s' := Delivered(s, cv, Collecting);
            && s' == s.(main := Collecting, sleeping := s'.sleeping, toPlates := s'.toPlates, inboxes := s'.inboxes)
            && Total(IsVat(id), s'.sleeping) + Total(IsVat(id), s'.toPlates)
            == Total(IsVat(id), s.sleeping) + Total(IsVat(id), s.toPlates) + IsVat(id)(cv)
  {
    hide Total;
    var mail := s.inboxes[cv.id];
    TotalSnoc(IsVat(id), s.sleeping, cv);
    TotalSnoc(IsVat(id), s.toPlates, Collected(cv, mail));
  }

  lemma PlateSeats(s: State, p: nat, sends: seq<nat>, keeps: seq<nat>, id: nat)
    requires p < |s.plates|
    ensures Seats(PlateStep(s, p, sends, keeps), id) == Seats(s, id)
  {
    var s' := PlateStep(s, p, sends, keeps);
    TotalUpdate(PlateVat(id), s.plates, p, s'.plates[p]);
    if s.plates[p].Running? {
      TotalSnoc(IsVat(id), s.toMain, s.plates[p].v);
    }
  }

  // ---- Mail stays on its way ----

  lemma DeliverShaped(s: State, cv: Vat)
    requires Shaped(s) && s.main == Collecting && Settled(cv, s.ids)
    ensures Shaped(Delivered(s, cv, Collecting))
  {
    hide MailKnown, PlateOk, MainOk;
    var mail := s.inboxes[cv.id];
    assert MailFor(mail, cv.id) && MailFor([], cv.id) && MailFor(cv.inbox + mail, cv.id);
    assert MailKnown(cv.outbox, s.ids);
  }

  lemma MainShaped(s: State, vatFirst: bool)
    requires Shaped(s) && !s.main.Triaging? && !s.main.Filing?
    ensures Shaped(MainStep(s, vatFirst))
  {
    hide MailFor, PlateOk, Settled;
    if s.main.Sorting? && s.mail == [] && s.main.held.Some? {
      DeliverShaped(s.(main := Collecting), s.main.held.value);
    } else if s.main.Collecting? && s.toMain != [] {
      DeliverShaped(s.(toMain := s.toMain[1..]), s.toMain[0]);
    }
  }

  lemma TriageShaped(s: State, vatFirst: bool)
    requires Shaped(s) && (s.main.Triaging? || s.main.Filing?)
    ensures Shaped(MainStep(s, vatFirst))
  {
    hide MailKnown, PlateOk, Settled;
  }

  /** What a hotplate does to its vat keeps the vat's mail in order. */
  lemma PlateKept(s: State, m: Move)
    requires m.Hotplate? && CanMove(s, m) && PlateOk(s.plates[m.p], s.ids) && AllSettled(s.toPlates, s.ids)
    ensures PlateOk(Step(s, m).plates[m.p], s.ids)
  {
    FreshKnown(m.sends, s.issued, s.ids);
    FreshKnown(m.keeps, s.issued + |m.sends|, s.ids);
  }

  lemma PlateShaped(s: State, m: Move)
    requires Shaped(s) && m.Hotplate? && CanMove(s, m)
    ensures Shaped(Step(s, m))
  {
    assert PlateOk(s.plates[m.p], s.ids);
    PlateKept(s, m);
    PlateReturns(s.plates[m.p], s.ids);
    hide MainOk, PlateOk, Registered, MailFor, Settled, Fresh;
  }

  lemma PlateReturns(p: Plate, ids: seq<nat>)
    requires PlateOk(p, ids)
    ensures p.Running? && p.v.outbox == [] ==> Settled(p.v, ids)
    ensures p.Running? && p.v.inbox != [] ==> p.v.inbox[|p.v.inbox| - 1].dst == p.v.id
    ensures p.Sending? && p.rest != [] ==> p.rest[0].dst in ids
  {
  }

  // ---- No wakeup is lost ----

  /** After its vat was looked for, no vat of that id sleeps: there was only the one. */
  lemma WokenUp(s: State, id: nat, i: nat)
    requires Seats(s, id) <= 1 && i < |Wake(s.sleeping, id).0|
    ensures Wake(s.sleeping, id).0[i].id != id
  {
    hide Total;
    var k := Position(s.sleeping, id);
    var rest := Wake(s.sleeping, id).0;
    TotalNonNegative(IsVat(id), s.toPlates);
    TotalNonNegative(IsVat(id), s.toMain);
    TotalNonNegative(PlateVat(id), s.plates);
    if k < |s.sleeping| {
      TotalRemove(IsVat(id), s.sleeping, k);
      TotalCovers(IsVat(id), rest, i);
    }
  }

  lemma MainNoneForgotten(s: State, vatFirst: bool)
    requires Shaped(s) && NoneForgotten(s) && (s.main.Triaging? ==> Seats(s, s.main.msg.dst) <= 1)
    ensures NoneForgotten(MainStep(s, vatFirst))
  {
    VatsKnown(s);
    hide Shaped, Seats;
    if s.main.Triaging? {
      TriageNoneForgotten(s, vatFirst);
    }
  }

  lemma TriageNoneForgotten(s: State, vatFirst: bool)
    requires NoneForgotten(s) && s.main.Triaging? && Seats(s, s.main.msg.dst) <= 1
    ensures NoneForgotten(MainStep(s, vatFirst))
  {
    hide Seats;
    var id, s' := s.main.msg.dst, MainStep(s, vatFirst);
    forall i | 0 <= i < |s'.sleeping|
      ensures s'.sleeping[i].id != id
    {
      WokenUp(s, id, i);
    }
  }

  lemma StepInv(s: State, m: Move)
    requires Inv(s) && CanMove(s, m)
    ensures Inv(Step(s, m))
  {
    hide Shaped, NoneForgotten, Emptied, Copies, Seats, MainStep, PlateStep;
    var s' := Step(s, m);
    KeepsIds(s, m);
    StepEmptied(s, m);
    forall t: nat
      ensures Copies(s', t) == One(t < s'.issued)
    {
      if m.Hotplate? {
        PlateCopies(s, m.p, m.sends, m.keeps, t);
      } else if s.main.Triaging? || s.main.Filing? {
        TriageCopies(s, m.vatFirst, t);
      } else {
        MainCopies(s, m.vatFirst, t);
      }
    }
    forall id: nat
      ensures Seats(s', id) == One(id in s'.ids)
    {
      if m.Hotplate? {
        PlateSeats(s, m.p, m.sends, m.keeps, id);
      } else {
        MainSeats(s, m.vatFirst, id);
      }
    }
    if m.Hotplate? {
      PlateShaped(s, m);
      PlateNoneForgotten(s, m);
    } else {
      assert s.main.Triaging? ==> Seats(s, s.main.msg.dst) <= 1;
      MainNoneForgotten(s, m.vatFirst);
      if s.main.Triaging? || s.main.Filing? {
        TriageShaped(s, m.vatFirst);
      } else {
        MainShaped(s, m.vatFirst);
      }
    }
  }

  lemma KeepsIds(s: State, m: Move)
    requires CanMove(s, m)
    ensures var s' := Step(s, m);
            s'.ids == s.ids && s'.issued >= s.issued && (m.Main? ==> s'.issued == s.issued)
  {
  }

  lemma PlateNoneForgotten(s: State, m: Move)
    requires NoneForgotten(s) && m.Hotplate? && CanMove(s, m)
    ensures NoneForgotten(Step(s, m))
  {
  }

  lemma StepEmptied(s: State, m: Move)
    requires Emptied(s) && CanMove(s, m)
    ensures Emptied(Step(s, m))
  {
    if m.Main? {
      MainEmptied(s, m.vatFirst);
    }
  }

  lemma MainEmptied(s: State, vatFirst: bool)
    requires Emptied(s)
    ensures Emptied(MainStep(s, vatFirst))
  {
  }

  // ---- The beginning ----

  lemma {:induction false} FirstTags(mail: seq<Msg>, first: nat, t: nat)
    requires forall i :: 0 <= i < |mail| ==> mail[i].tag == first + i
    ensures Total(IsTag(t), mail) == One(first <= t < first + |mail|)
  {
    if mail != [] {
      FirstTags(mail[1..], first + 1, t);
    }
  }

  lemma {:induction false} FirstVats(vats: seq<Vat>, ids: seq<nat>, id: nat)
    requires |vats| == |ids| && forall i :: 0 <= i < |ids| ==> vats[i].id == ids[i]
    requires forall i, j :: 0 <= i < j < |ids| ==> ids[i] != ids[j]
    ensures Total(IsVat(id), vats) == One(id in ids)
  {
    if ids != [] {
      FirstVats(vats[1..], ids[1..], id);
      assert ids == [ids[0]] + ids[1..];
    }
  }

  lemma InitCounts(s: State, id: nat, t: nat)
    requires Init(s)
    ensures Seats(s, id) == One(id in s.ids) && Copies(s, t) == One(t < s.issued)
  {
    hide Total;
    FirstVats(s.toMain, s.ids, id);
    FirstTags(s.mail, 0, t);
    TotalZero(IsVat(id), []);
    TotalZero(PlateVat(id), s.plates);
    TotalZero(IsTag(t), []);
    TotalZero(InVat(t), []);
    TotalZero(InVat(t), s.toMain);
    TotalZero(OnPlate(t), s.plates);
    TotalZero(InBox(t, s.inboxes), s.ids);
    TotalZero(IsHandled(t), []);
  }

  lemma InitInv(s: State)
    requires Init(s)
    ensures Inv(s)
  {
    hide Seats, Copies;
    forall id: nat
      ensures Seats(s, id) == One(id in s.ids)
    {
      InitCounts(s, id, 0);
    }
    forall t: nat
      ensures Copies(s, t) == One(t < s.issued)
    {
      InitCounts(s, 0, t);
    }
  }

  // ---- Whole runs ----

  ghost predicate Execution(states: seq<State>, moves: seq<Move>) {
    && |states| == |moves| + 1 && Init(states[0])
    && (forall k :: 0 <= k < |moves| ==> Follows(states[k], moves[k], states[k + 1]))
  }

  predicate Follows(s: State, m: Move, s': State) {
    CanMove(s, m) && s' == Step(s, m)
  }

  lemma {:induction false} Always(states: seq<State>, moves: seq<Move>, k: nat)
    requires Execution(states, moves) && k < |states|
    ensures Inv(states[k])
  {
    hide Inv, Init, Step;
    if k == 0 {
      InitInv(states[0]);
    } else {
      Always(states, moves, k - 1);
      assert Follows(states[k - 1], moves[k - 1], states[k]);
      StepInv(states[k - 1], moves[k - 1]);
    }
  }

  /** At every step each vat is in exactly one place: asleep, in one of the two channels, on one
      hotplate, or in the main loop's hand. */
  lemma EachVatOnce(states: seq<State>, moves: seq<Move>, k: nat, id: nat)
    requires Execution(states, moves) && k < |states|
    ensures Seats(states[k], id) == if id in states[k].ids then 1 else 0
  {
    Always(states, moves, k);
  }

  /** No vat sleeps while there is mail for it in the main loop. */
  lemma NoLostWakeup(states: seq<State>, moves: seq<Move>, k: nat, i: nat)
    requires Execution(states, moves) && k < |states| && i < |states[k].sleeping|
    ensures var s := states[k];
            s.sleeping[i].id in s.inboxes && s.inboxes[s.sleeping[i].id] == []
  {
    Always(states, moves, k);
  }

  /** Every message sent is in exactly one place or handled: none is lost, none is doubled. */
  lemma MessagesConserved(states: seq<State>, moves: seq<Move>, k: nat, t: nat)
    requires Execution(states, moves) && k < |states|
    ensures Copies(states[k], t) == if t < states[k].issued then 1 else 0
  {
    Always(states, moves, k);
  }

  lemma CopiesCover(s: State, t: nat)
    ensures Total(IsHandled(t), s.handled) <= Copies(s, t)
  {
    hide Total;
    forall v: Vat
      ensures InVat(t)(v) >= 0
    {
      TotalNonNegative(IsTag(t), v.inbox);
      TotalNonNegative(IsTag(t), v.outbox);
    }
    TotalNonNegative(InVat(t), s.sleeping);
    TotalNonNegative(InVat(t), s.toPlates);
    TotalNonNegative(InVat(t), s.toMain);
    forall p | 0 <= p < |s.plates|
      ensures OnPlate(t)(s.plates[p]) >= 0
    {
      if s.plates[p].Sending? {
        TotalNonNegative(IsTag(t), s.plates[p].rest);
      }
    }
    TotalNonNegative(OnPlate(t), s.plates);
    TotalNonNegative(IsTag(t), s.mail);
    forall i | 0 <= i < |s.ids|
      ensures InBox(t, s.inboxes)(s.ids[i]) >= 0
    {
      if s.ids[i] in s.inboxes {
        TotalNonNegative(IsTag(t), s.inboxes[s.ids[i]]);
      }
    }
    TotalNonNegative(InBox(t, s.inboxes), s.ids);
  }

  /** run_msg gets no message twice, and each on the vat it was sent to. */
  lemma HandledOnce(states: seq<State>, moves: seq<Move>, k: nat, i: nat, j: nat)
    requires Execution(states, moves) && k < |states| && i < j < |states[k].handled|
    ensures var h := states[k].handled;
            h[i].0.tag != h[j].0.tag && h[i].0.dst == h[i].1 && h[j].0.dst == h[j].1
  {
    Always(states, moves, k);
    var s := states[k];
    var t := s.handled[i].0.tag;
    assert Copies(s, t) <= 1;
    CopiesCover(s, t);
    hide Copies, Total;
    TotalCoversPair(IsHandled(t), s.handled, i, j);
  }

  /** When every vat sleeps and no message is in the channel, every message ever sent has been handled. */
  lemma QuietMeansDone(states: seq<State>, moves: seq<Move>, k: nat, t: nat) returns (i: nat)
    requires Execution(states, moves) && k < |states| && t < states[k].issued
    requires var s := states[k];
             && s.main == Selecting && s.mail == [] && s.toPlates == [] && s.toMain == []
             && forall p :: 0 <= p < |s.plates| ==> s.plates[p] == Free
    ensures i < |states[k].handled| && states[k].handled[i].0.tag == t
  {
    Always(states, moves, k);
    var s := states[k];
    assert Copies(s, t) == 1;
    assert forall id: nat :: Seats(s, id) == One(id in s.ids);
    QuietCopies(s, t);
    i := TotalWitness(IsHandled(t), s.handled);
  }

  lemma QuietCopies(s: State, t: nat)
    requires Shaped(s) && NoneForgotten(s) && Emptied(s) && forall id: nat :: Seats(s, id) == One(id in s.ids)
    requires s.main == Selecting && s.mail == [] && s.toPlates == [] && s.toMain == []
    requires forall p :: 0 <= p < |s.plates| ==> s.plates[p] == Free
    ensures Copies(s, t) == Total(IsHandled(t), s.handled)
  {
    hide Total, Seats, MailFor, MailKnown, PlateOk, MainOk;
    TotalZero(IsTag(t), []);
    forall i | 0 <= i < |s.sleeping|
      ensures InVat(t)(s.sleeping[i]) == 0
    {
      assert s.sleeping[i].inbox == [] && s.sleeping[i].outbox == [];
    }
    TotalZero(InVat(t), []);
    forall i | 0 <= i < |s.ids|
      ensures InBox(t, s.inboxes)(s.ids[i]) == 0
    {
      AsleepWhenQuiet(s, s.ids[i]);
    }
    hide Shaped, NoneForgotten, Emptied, Seats;
    TotalZero(InVat(t), s.sleeping);
    TotalZero(OnPlate(t), s.plates);
    TotalZero(InBox(t, s.inboxes), s.ids);
  }

  lemma AsleepWhenQuiet(s: State, id: nat)
    requires NoneForgotten(s) && Seats(s, id) == 1
    requires s.main == Selecting && s.toPlates == [] && s.toMain == []
    requires forall p :: 0 <= p < |s.plates| ==> s.plates[p] == Free
    ensures id in s.inboxes && s.inboxes[id] == []
  {
    TotalZero(PlateVat(id), s.plates);
    var i := TotalWitness(IsVat(id), s.sleeping);
    assert s.sleeping[i].id == id;
  }
}
