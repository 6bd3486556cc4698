/** In which order a hosted vat handles its messages (src/hosted.rs:18-66). */
module HostedOrder {
  import opened Hosted
  import opened Bytes
  import opened Tally

  // ---- A vat's line ----

  /** The messages for one vat. */
  function For(mail: seq<Msg>, id: nat): seq<Msg> {
    if mail == [] then [] else (if mail[0].dst == id then [mail[0]] else []) + For(mail[1..], id)
  }

  function Inbox(vats: seq<Vat>, id: nat): seq<Msg> {
    if vats == [] then [] else (if vats[0].id == id then vats[0].inbox else []) + Inbox(vats[1..], id)
  }

  function PlateInbox(p: Plate, id: nat): seq<Msg> {
    if p.Free? || p.v.id != id then [] else p.v.inbox
  }

  function PlatesInbox(plates: seq<Plate>, id: nat): seq<Msg> {
    if plates == [] then [] else PlateInbox(plates[0], id) + PlatesInbox(plates[1..], id)
  }

  /** The mail the vat has with it, on a hotplate or on the way to one. */
  function Batch(s: State, id: nat): seq<Msg> {
    Inbox(s.toPlates, id) + PlatesInbox(s.plates, id)
  }

  /** The mail for it that is filed, being filed, or in the channel. */
  function Coming(s: State, id: nat): seq<Msg> {
    (if id in s.inboxes then s.inboxes[id] else [])
    + (if (s.main.Triaging? || s.main.Filing?) && s.main.msg.dst == id then [s.main.msg] else [])
    + For(s.mail, id)
  }

  function Line(s: State, id: nat): seq<Msg> {
    Batch(s, id) + Coming(s, id)
  }

  /** The messages the vat has handled, first to last. */
  function HandledBy(handled: seq<(Msg, nat)>, id: nat): seq<Msg> {
    if handled == [] then []
    else
      var last := handled[|handled| - 1];
      HandledBy(handled[..|handled| - 1], id) + if last.1 == id then [last.0] else []
  }

  function Backwards(mail: seq<Msg>): seq<Msg> {
    if mail == [] then [] else [mail[|mail| - 1]] + Backwards(mail[..|mail| - 1])
  }

  // ---- How lines move ----

  lemma {:induction false} ForSnoc(mail: seq<Msg>, m: Msg, id: nat)
    ensures For(mail + [m], id) == For(mail, id) + if m.dst == id then [m] else []
  {
    if mail != [] {
      assert (mail + [m])[1..] == mail[1..] + [m];
      ForSnoc(mail[1..], m, id);
    }
  }

  lemma {:induction false} InboxSnoc(vats: seq<Vat>, v: Vat, id: nat)
    ensures Inbox(vats + [v], id) == Inbox(vats, id) + if v.id == id then v.inbox else []
  {
    if vats != [] {
      assert (vats + [v])[1..] == vats[1..] + [v];
      InboxSnoc(vats[1..], v, id);
    }
  }

  lemma {:induction false} NoInbox(vats: seq<Vat>, id: nat)
    requires Total(IsVat(id), vats) <= 0
    ensures Inbox(vats, id) == []
  {
    if vats != [] {
      TotalNonNegative(IsVat(id), vats[1..]);
      NoInbox(vats[1..], id);
    }
  }

  lemma {:induction false} NoPlatesInbox(plates: seq<Plate>, id: nat)
    requires Total(PlateVat(id), plates) <= 0
    ensures PlatesInbox(plates, id) == []
  {
    if plates != [] {
      TotalNonNegative(PlateVat(id), plates[1..]);
      NoPlatesInbox(plates[1..], id);
    }
  }

  /** A hotplate alone with the vat has all of its inbox. */
  lemma {:induction false} OnlyPlate(plates: seq<Plate>, p: nat, x: Plate, id: nat)
    requires p < |plates| && Total(PlateVat(id), plates) <= PlateVat(id)(plates[p])
    ensures PlatesInbox(plates[p := x], id) == PlateInbox(x, id)
  {
    if p == 0 {
      NoPlatesInbox(plates[1..], id);
      assert plates[p := x][1..] == plates[1..];
    } else {
      TotalNonNegative(PlateVat(id), plates[1..]);
      TotalCovers(PlateVat(id), plates[1..], p - 1);
      assert plates[p := x][1..] == plates[1..][p - 1 := x];
      OnlyPlate(plates[1..], p - 1, x, id);
    }
  }

  lemma {:induction false} SamePlate(plates: seq<Plate>, p: nat, x: Plate, id: nat)
    requires p < |plates| && PlateInbox(x, id) == PlateInbox(plates[p], id)
    ensures PlatesInbox(plates[p := x], id) == PlatesInbox(plates, id)
  {
    if p == 0 {
      assert plates[p := x][1..] == plates[1..];
    } else {
      assert plates[p := x][1..] == plates[1..][p - 1 := x];
      SamePlate(plates[1..], p - 1, x, id);
    }
  }

  /** The shares of a vat's one seat. */
  lemma OneSeat(s: State, id: nat)
    requires Seats(s, id) <= 1
    ensures Total(IsVat(id), s.sleeping) >= 0 && Total(IsVat(id), s.toPlates) >= 0
    ensures Total(IsVat(id), s.toMain) >= 0 && Total(PlateVat(id), s.plates) >= 0
    ensures Total(IsVat(id), s.toPlates) + Total(IsVat(id), s.toMain) + Total(PlateVat(id), s.plates)
            + (if Held(s.main).Some? then One(Held(s.main).value.id == id) else 0) <= 1
  {
    TotalNonNegative(IsVat(id), s.sleeping);
    TotalNonNegative(IsVat(id), s.toPlates);
    TotalNonNegative(IsVat(id), s.toMain);
    TotalNonNegative(PlateVat(id), s.plates);
  }

  /** A vat in the main loop's hand or at the head of its channel has no batch. */
  lemma NoBatch(s: State, id: nat)
    requires Seats(s, id) <= 1
    requires (Held(s.main).Some? && Held(s.main).value.id == id) || (s.toMain != [] && s.toMain[0].id == id)
    ensures Batch(s, id) == []
  {
    OneSeat(s, id);
    if s.toMain != [] {
      TotalCovers(IsVat(id), s.toMain, 0);
    }
    NoInbox(s.toPlates, id);
    NoPlatesInbox(s.plates, id);
  }

  lemma DeliverLine(s: State, cv: Vat, id: nat)
    requires cv.id in s.inboxes && cv.inbox == [] && cv.outbox == [] && s.main.Collecting?
    requires cv.id == id ==> Batch(s, id) == []
    ensures Line(Delivered(s, cv, Collecting), id) == Line(s, id)
    ensures Batch(Delivered(s, cv, Collecting), id) == Batch(s, id) || Batch(s, id) == []
  {
    var mail, s' := s.inboxes[cv.id], Delivered(s, cv, Collecting);
    if mail == [] {
      SameLine(s, s', id);
    } else {
      InboxSnoc(s.toPlates, Collected(cv, mail), id);
      assert [] + mail == mail;
      hide Inbox, PlatesInbox, For;
      if cv.id != id {
        SameLine(s, s', id);
      } else {
        NewBatch(s, s', mail, id);
      }
    }
  }

  lemma SameLine(s: State, s': State, id: nat)
    requires s.main == s'.main && s'.mail == s.mail && s'.plates == s.plates && Inbox(s'.toPlates, id) == Inbox(s.toPlates, id)
    requires (id in s'.inboxes <==> id in s.inboxes) && (id in s.inboxes ==> s'.inboxes[id] == s.inboxes[id])
    ensures Batch(s', id) == Batch(s, id) && Coming(s', id) == Coming(s, id)
  {
  }

  lemma NewBatch(s: State, s': State, mail: seq<Msg>, id: nat)
    requires s.main == s'.main == Collecting && s'.mail == s.mail && s'.plates == s.plates && Batch(s, id) == []
    requires Inbox(s'.toPlates, id) == Inbox(s.toPlates, id) + mail
    requires id in s.inboxes && s.inboxes[id] == mail && id in s'.inboxes && s'.inboxes[id] == []
    ensures Line(s', id) == Line(s, id)
  {
    hide Inbox, PlatesInbox, For;
    assert Batch(s', id) == mail;
    assert Coming(s, id) == mail + Coming(s', id);
  }

  /** From the channel into the main loop's hand. */
  lemma ReceiveLine(s: State, s': State, id: nat)
    requires s.mail != [] && !s.main.Triaging? && !s.main.Filing? && s'.main.Triaging? && s'.main.msg == s.mail[0]
    requires s' == s.(main := s'.main, mail := s.mail[1..])
    ensures Batch(s', id) == Batch(s, id) && Coming(s', id) == Coming(s, id)
  {
    hide Inbox, PlatesInbox;
  }

  lemma TriageLine(s: State, vatFirst: bool, id: nat)
    requires s.main.Triaging? && forall i :: 0 <= i < |s.sleeping| ==> s.sleeping[i].inbox == []
    ensures var s' := MainStep(s, vatFirst);
            Batch(s', id) == Batch(s, id) && Coming(s', id) == Coming(s, id)
  {
    var k := Position(s.sleeping, s.main.msg.dst);
    if k < |s.sleeping| {
      InboxSnoc(s.toPlates, s.sleeping[k], id);
    } else {
      assert s.toPlates + [] == s.toPlates;
    }
    hide Inbox, PlatesInbox, For;
  }

  lemma FileLine(s: State, vatFirst: bool, id: nat)
    requires s.main.Filing? && s.main.msg.dst in s.inboxes
    ensures var s' := MainStep(s, vatFirst);
            Batch(s', id) == Batch(s, id) && Coming(s', id) == Coming(s, id)
  {
    hide Inbox, PlatesInbox, For;
  }

  /** The main loop never changes the order of a vat's messages: it only moves the border between
      the batch and what is coming, and that only when the batch is empty. */
  lemma MainKeepsLine(s: State, vatFirst: bool, id: nat)
    requires Inv(s)
    ensures Line(MainStep(s, vatFirst), id) == Line(s, id)
    ensures Batch(MainStep(s, vatFirst), id) == Batch(s, id) || Batch(s, id) == []
  {
    assert Seats(s, id) <= 1;
    HeldIsDone(s);
    VatsKnown(s);
    hide Inv, Shaped, Seats, Delivered, Batch, Coming, Wake;
    match s.main
    case Selecting =>
      if vatFirst && s.toMain != [] {
        OnlyMain(s, MainStep(s, vatFirst), id);
      } else if s.mail != [] {
        ReceiveLine(s, MainStep(s, vatFirst), id);
      }
    case Sorting(held) =>
      if s.mail != [] {
        ReceiveLine(s, MainStep(s, vatFirst), id);
      } else {
        OnlyMain(s, s.(main := Collecting), id);
        if held.Some? {
          if held.value.id == id {
            NoBatch(s, id);
          }
          DeliverLine(s.(main := Collecting), held.value, id);
          DeliverIgnoresMain(s, held.value);
        }
      }
    case Triaging(_, _) => TriageLine(s, vatFirst, id);
    case Filing(_, _) => FileLine(s, vatFirst, id);
    case Collecting =>
      OnlyMain(s, s.(main := Selecting), id);
      if s.toMain != [] {
        OnlyMain(s, s.(toMain := s.toMain[1..]), id);
        if s.toMain[0].id == id {
          NoBatch(s, id);
        }
        DeliverLine(s.(toMain := s.toMain[1..]), s.toMain[0], id);
      }
  }

  /** Lines do not run through the main loop's hand or the channel of vats that come back. */
  lemma OnlyMain(s: State, s': State, id: nat)
    requires !s.main.Triaging? && !s.main.Filing? && !s'.main.Triaging? && !s'.main.Filing?
    requires s' == s.(main := s'.main, toMain := s'.toMain)
    ensures Batch(s', id) == Batch(s, id) && Coming(s', id) == Coming(s, id)
  {
  }

  lemma HeldIsDone(s: State)
    requires Inv(s)
    ensures Held(s.main).Some? ==> Held(s.main).value.inbox == [] && Held(s.main).value.outbox == []
    ensures s.toMain != [] ==> s.toMain[0].inbox == [] && s.toMain[0].outbox == []
    ensures s.main.Triaging? || s.main.Filing? ==> s.main.msg.dst in s.inboxes
    ensures forall i :: 0 <= i < |s.sleeping| ==> s.sleeping[i].inbox == []
  {
    hide Seats, Copies;
  }

  /** What a hotplate's step does to a vat's line: nothing; one message more at its end; or the
      newest message of the batch gone, and handled. */
  ghost predicate Advances(s: State, s': State, id: nat) {
    || Same(s, s', id)
    || Arrives(s, s', id)
    || (Batch(s, id) != [] && Coming(s', id) == Coming(s, id)
        && HandledBy(s'.handled, id) == HandledBy(s.handled, id) + [Batch(s, id)[|Batch(s, id)| - 1]]
        && Batch(s', id) == Batch(s, id)[..|Batch(s, id)| - 1])
  }

  ghost predicate Same(s: State, s': State, id: nat) {
    HandledBy(s'.handled, id) == HandledBy(s.handled, id) && Batch(s', id) == Batch(s, id) && Coming(s', id) == Coming(s, id)
  }

  ghost predicate Arrives(s: State, s': State, id: nat) {
    && HandledBy(s'.handled, id) == HandledBy(s.handled, id) && Batch(s', id) == Batch(s, id)
    && exists m: Msg :: m.dst == id && Coming(s', id) == Coming(s, id) + [m]
  }

  lemma PlateAdvances(s: State, p: nat, sends: seq<nat>, keeps: seq<nat>, id: nat)
    requires Inv(s) && p < |s.plates|
    ensures Advances(s, PlateStep(s, p, sends, keeps), id)
  {
    assert Seats(s, id) <= 1;
    OneSeat(s, id);
    TotalCovers(PlateVat(id), s.plates, p);
    hide Inv, Seats, Advances, Total;
    match s.plates[p]
    case Free => TakeAdvances(s, p, sends, keeps, id);
    case Running(v) =>
      if v.inbox != [] {
        HandleAdvances(s, p, sends, keeps, id);
      } else {
        QuietAdvances(s, p, sends, keeps, id);
      }
    case Sending(v, rest) =>
      if rest != [] {
        SendAdvances(s, p, sends, keeps, id);
      } else {
        QuietAdvances(s, p, sends, keeps, id);
      }
  }

  lemma QuietAdvances(s: State, p: nat, sends: seq<nat>, keeps: seq<nat>, id: nat)
    requires p < |s.plates|
    requires (s.plates[p].Running? && s.plates[p].v.inbox == []) || (s.plates[p].Sending? && s.plates[p].rest == [])
    ensures Same(s, PlateStep(s, p, sends, keeps), id)
  {
    var s' := PlateStep(s, p, sends, keeps);
    SamePlate(s.plates, p, s'.plates[p], id);
    assert s' == s.(plates := s.plates[p := s'.plates[p]], toMain := s'.toMain);
    hide PlateStep, PlateInbox, Inbox, PlatesInbox, For, HandledBy;
    OnlyPlates(s, s', id);
  }

  lemma OnlyPlates(s: State, s': State, id: nat)
    requires s' == s.(plates := s'.plates, toMain := s'.toMain) && PlatesInbox(s'.plates, id) == PlatesInbox(s.plates, id)
    ensures Same(s, s', id)
  {
  }

  lemma SendAdvances(s: State, p: nat, sends: seq<nat>, keeps: seq<nat>, id: nat)
    requires p < |s.plates| && s.plates[p].Sending? && s.plates[p].rest != []
    ensures Advances(s, PlateStep(s, p, sends, keeps), id)
  {
    var s', m := PlateStep(s, p, sends, keeps), s.plates[p].rest[0];
    SamePlate(s.plates, p, s'.plates[p], id);
    ForSnoc(s.mail, m, id);
    hide PlateInbox, Inbox, PlatesInbox, For, HandledBy;
    if m.dst == id {
      assert Coming(s', id) == Coming(s, id) + [m];
      assert Arrives(s, s', id);
    } else {
      assert Coming(s', id) == Coming(s, id);
      assert Same(s, s', id);
    }
  }

  lemma TakeAdvances(s: State, p: nat, sends: seq<nat>, keeps: seq<nat>, id: nat)
    requires p < |s.plates| && s.plates[p].Free?
    requires Total(IsVat(id), s.toPlates) + Total(PlateVat(id), s.plates) <= 1
    requires Total(IsVat(id), s.toPlates) >= 0 && Total(PlateVat(id), s.plates) >= 0
    ensures Advances(s, PlateStep(s, p, sends, keeps), id)
  {
    var s' := PlateStep(s, p, sends, keeps);
    if s.toPlates != [] {
      TakeBatch(s.toPlates, s.plates, p, id);
    }
    hide Inbox, PlatesInbox, For, HandledBy, Total;
    assert Same(s, s', id);
  }

  lemma InboxHead(vats: seq<Vat>, id: nat)
    requires vats != []
    ensures Inbox(vats, id) == if vats[0].id == id then vats[0].inbox + Inbox(vats[1..], id) else Inbox(vats[1..], id)
  {
    if vats[0].id != id {
      assert [] + Inbox(vats[1..], id) == Inbox(vats[1..], id);
    }
  }

  lemma TakeBatch(vats: seq<Vat>, plates: seq<Plate>, p: nat, id: nat)
    requires vats != [] && p < |plates| && plates[p].Free?
    requires Total(IsVat(id), vats) + Total(PlateVat(id), plates) <= 1 && Total(PlateVat(id), plates) >= 0
    ensures Inbox(vats[1..], id) + PlatesInbox(plates[p := Running(vats[0])], id)
            == Inbox(vats, id) + PlatesInbox(plates, id)
  {
    InboxHead(vats, id);
    if vats[0].id == id {
      TakesIt(vats, plates, p, id);
    } else {
      SamePlate(plates, p, Running(vats[0]), id);
    }
  }

  lemma TakesIt(vats: seq<Vat>, plates: seq<Plate>, p: nat, id: nat)
    requires vats != [] && vats[0].id == id && p < |plates| && plates[p].Free?
    requires Total(IsVat(id), vats) + Total(PlateVat(id), plates) <= 1 && Total(PlateVat(id), plates) >= 0
    ensures Inbox(vats[1..], id) == [] && PlatesInbox(plates, id) == []
    ensures PlatesInbox(plates[p := Running(vats[0])], id) == vats[0].inbox
  {
    TotalNonNegative(IsVat(id), vats[1..]);
    NoInbox(vats[1..], id);
    NoPlatesInbox(plates, id);
    OnlyPlate(plates, p, Running(vats[0]), id);
  }

  lemma HandleAdvances(s: State, p: nat, sends: seq<nat>, keeps: seq<nat>, id: nat)
    requires p < |s.plates| && s.plates[p].Running? && s.plates[p].v.inbox != []
    requires Total(IsVat(id), s.toPlates) + Total(PlateVat(id), s.plates) <= 1
    requires Total(IsVat(id), s.toPlates) >= 0 && 0 <= PlateVat(id)(s.plates[p]) <= Total(PlateVat(id), s.plates)
    ensures Advances(s, PlateStep(s, p, sends, keeps), id)
  {
    var v, s' := s.plates[p].v, PlateStep(s, p, sends, keeps);
    var x, h := s'.plates[p], (v.inbox[|v.inbox| - 1], v.id);
    assert s' == s.(plates := s.plates[p := x], issued := s'.issued, handled := s.handled + [h]);
    assert x.Sending? && x.v.id == v.id && x.v.inbox == v.inbox[..|v.inbox| - 1];
    hide PlateStep, Inbox, PlatesInbox, PlateInbox, For, HandledBy, Total;
    HandleBatch(s, p, x, id);
    HandledSnoc(s.handled, h, id);
    assert Coming(s', id) == Coming(s, id);
    if v.id == id {
      assert Batch(s', id) == x.v.inbox;
    } else {
      assert Batch(s', id) == Batch(s, id);
      assert Same(s, s', id);
    }
  }

  lemma HandleBatch(s: State, p: nat, x: Plate, id: nat)
    requires p < |s.plates| && s.plates[p].Running? && s.plates[p].v.inbox != []
    requires x.Sending? && x.v.id == s.plates[p].v.id
    requires Total(IsVat(id), s.toPlates) + Total(PlateVat(id), s.plates) <= 1
    requires Total(IsVat(id), s.toPlates) >= 0 && 0 <= PlateVat(id)(s.plates[p]) <= Total(PlateVat(id), s.plates)
    ensures var v, now := s.plates[p].v, Inbox(s.toPlates, id) + PlatesInbox(s.plates[p := x], id);
            if v.id == id then Batch(s, id) == v.inbox && now == x.v.inbox else now == Batch(s, id)
  {
    if x.v.id == id {
      NoInbox(s.toPlates, id);
      BeforeAndAfter(s.plates, p, x, id);
    } else {
      SamePlate(s.plates, p, x, id);
    }
    hide Inbox, PlatesInbox, Total;
  }

  lemma BeforeAndAfter(plates: seq<Plate>, p: nat, x: Plate, id: nat)
    requires p < |plates| && Total(PlateVat(id), plates) <= PlateVat(id)(plates[p])
    ensures PlatesInbox(plates, id) == PlateInbox(plates[p], id)
    ensures PlatesInbox(plates[p := x], id) == PlateInbox(x, id)
  {
    OnlyPlate(plates, p, plates[p], id);
    OnlyPlate(plates, p, x, id);
    assert plates[p := plates[p]] == plates;
  }

  lemma HandledSnoc(handled: seq<(Msg, nat)>, h: (Msg, nat), id: nat)
    ensures HandledBy(handled + [h], id) == HandledBy(handled, id) + if h.1 == id then [h.0] else []
  {
    assert (handled + [h])[..|handled|] == handled;
  }

  // ---- What a vat sends ----

  /** What the hotplate still has to send, first to last. */
  function Unsent(p: Plate): seq<Msg> {
    match p
    case Free => []
    case Running(v) => v.outbox
    case Sending(v, rest) => rest + v.outbox
  }

  /** A hotplate sends in order: what is sent goes from the front of what is unsent to the end of the
      channel, and a handler puts what it sends before the outbox and what it leaves behind it. */
  lemma SendsInOrder(s: State, p: nat, sends: seq<nat>, keeps: seq<nat>)
    requires Inv(s) && p < |s.plates|
    ensures var s', plate := PlateStep(s, p, sends, keeps), s.plates[p];
            if plate.Running? && plate.v.inbox != [] then
              && s'.mail == s.mail
              && Unsent(s'.plates[p]) == Fresh(sends, s.issued) + Unsent(plate) + Fresh(keeps, s.issued + |sends|)
            else s'.mail + Unsent(s'.plates[p]) == s.mail + Unsent(plate)
  {
    var plate := s.plates[p];
    assert s.toPlates != [] ==> Settled(s.toPlates[0], s.ids);
    hide Inv, PlateStep;
    if plate.Sending? {
      SendsNext(s, p, sends, keeps);
    } else {
      Loads(s, p, sends, keeps);
    }
  }

  /** A handler's messages go where it sends them, numbered in the order in which it sends them. */
  lemma {:induction false} FreshAt(dests: seq<nat>, first: nat, i: nat)
    requires i < |dests|
    ensures |Fresh(dests, first)| == |dests| && Fresh(dests, first)[i] == Msg(dests[i], first + i)
  {
    if |dests| == 1 {
      assert Fresh(dests[1..], first + 1) == [];
    } else {
      FreshAt(dests[1..], first + 1, if i == 0 then 0 else i - 1);
    }
  }

  lemma SendsNext(s: State, p: nat, sends: seq<nat>, keeps: seq<nat>)
    requires p < |s.plates| && s.plates[p].Sending?
    ensures var s' := PlateStep(s, p, sends, keeps);
            p < |s'.plates| && s'.mail + Unsent(s'.plates[p]) == s.mail + Unsent(s.plates[p])
  {
    var v, rest := s.plates[p].v, s.plates[p].rest;
    if rest == [] {
      assert rest + v.outbox == v.outbox;
    } else {
      assert rest == [rest[0]] + rest[1..];
      assert s.mail + (rest + v.outbox) == (s.mail + [rest[0]]) + (rest[1..] + v.outbox);
    }
  }

  lemma Loads(s: State, p: nat, sends: seq<nat>, keeps: seq<nat>)
    requires p < |s.plates| && !s.plates[p].Sending? && (s.toPlates != [] ==> s.toPlates[0].outbox == [])
    ensures var s', plate := PlateStep(s, p, sends, keeps), s.plates[p];
            && p < |s'.plates| && s'.mail == s.mail
            && Unsent(s'.plates[p]) ==
               if plate.Running? && plate.v.inbox != [] then
                 Fresh(sends, s.issued) + Unsent(plate) + Fresh(keeps, s.issued + |sends|)
               else Unsent(plate)
  {
    hide Fresh;
    match s.plates[p]
    case Free =>
    case Running(v) =>
      var front, back := Fresh(sends, s.issued), Fresh(keeps, s.issued + |sends|);
      assert front + (v.outbox + back) == front + v.outbox + back;
      assert v.outbox + [] == v.outbox;
  }

  // ---- Whole runs ----

  lemma MainHandles(s: State, vatFirst: bool)
    ensures MainStep(s, vatFirst).handled == s.handled
  {
  }

  function Plan(s: State, id: nat): seq<Msg> {
    HandledBy(s.handled, id) + Backwards(Batch(s, id))
  }

  /** The plan of a vat with a batch stays; without one, all of it is done, and a new batch may come. */
  lemma StepPlan(s: State, m: Move, id: nat)
    requires Inv(s) && CanMove(s, m)
    ensures HandledBy(s.handled, id) <= HandledBy(Step(s, m).handled, id)
    ensures Plan(Step(s, m), id) == Plan(s, id) || HandledBy(s.handled, id) == Plan(s, id)
  {
    var s' := Step(s, m);
    if m.Main? {
      MainKeepsLine(s, m.vatFirst, id);
      MainHandles(s, m.vatFirst);
    } else {
      PlateAdvances(s, m.p, m.sends, m.keeps, id);
    }
    hide Step, Inv, Batch, Coming, HandledBy, Line, CanMove, Backwards;
    PlanKept(HandledBy(s.handled, id), Batch(s, id), HandledBy(s'.handled, id), Batch(s', id));
  }

  lemma PlanKept(done: seq<Msg>, batch: seq<Msg>, done': seq<Msg>, batch': seq<Msg>)
    requires (done' == done && (batch' == batch || batch == []))
             || (batch != [] && done' == done + [batch[|batch| - 1]] && batch' == batch[..|batch| - 1])
    ensures done <= done'
    ensures done' + Backwards(batch') == done + Backwards(batch) || done == done + Backwards(batch)
  {
    if batch != [] && done' != done {
      assert done + ([batch[|batch| - 1]] + Backwards(batch')) == done' + Backwards(batch');
    }
  }

  /** What is in hand at some moment of a run is handled next, whatever else arrives: its newest
      message first, its oldest last, and no other message of that vat before all of it. */
  lemma {:induction false} NewestFirst(states: seq<State>, moves: seq<Move>, j: nat, k: nat, id: nat)
    requires Execution(states, moves) && j <= k < |states|
    ensures var plan := HandledBy(states[j].handled, id) + Backwards(Batch(states[j], id));
            var done := HandledBy(states[k].handled, id);
            plan <= done || (done <= plan && done + Backwards(Batch(states[k], id)) == plan)
    decreases k
  {
    hide Inv, Batch, HandledBy, Backwards, Step, CanMove;
    if j < k {
      NewestFirst(states, moves, j, k - 1, id);
      Always(states, moves, k - 1);
      assert Follows(states[k - 1], moves[k - 1], states[k]);
      StepPlan(states[k - 1], moves[k - 1], id);
    }
  }
}
