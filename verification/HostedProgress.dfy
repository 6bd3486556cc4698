/** The hosted scheduler always goes on while there is mail, and stops when there is none
    (src/hosted.rs:12-169). */
module HostedProgress {
  import opened Hosted
  import opened Bytes
  import opened Tally

  // ---- What is left to do ----

  function VatLoad(place: nat, v: Vat): int {
    place + 2 * |v.inbox| + 20 * |v.outbox|
  }

  function PlateLoad(p: Plate): int {
    match p
    case Free => 0
    case Running(v) => VatLoad(4, v)
    case Sending(v, rest) => VatLoad(5, v) + 18 * |rest|
  }

  function VatRank(place: nat): Vat -> int {
    (v: Vat) => VatLoad(place, v)
  }

  function PlateRank(): Plate -> int {
    (p: Plate) => PlateLoad(p)
  }

  function BoxRank(inboxes: Inboxes): nat -> int {
    (id: nat) => if id in inboxes then 7 * |inboxes[id]| else 0
  }

  function MainRank(main: MainPC): int {
    (match main
     case Selecting => 0
     case Sorting(_) => 2
     case Triaging(_, _) => 16
     case Filing(_, _) => 10
     case Collecting => 1)
    + if Held(main).Some? then VatRank(0)(Held(main).value) else 0
  }

  /** The farther a vat or a message still has to go, the more it weighs. */
  function Rank(s: State): int {
    Total(VatRank(0), s.sleeping) + Total(VatRank(5), s.toPlates) + Total(VatRank(3), s.toMain)
    + Total(PlateRank(), s.plates) + MainRank(s.main) + 17 * |s.mail| + Total(BoxRank(s.inboxes), s.ids)
  }

  lemma RankNatural(s: State)
    ensures Rank(s) >= 0
  {
    hide Total;
    TotalNonNegative(VatRank(0), s.sleeping);
    TotalNonNegative(VatRank(5), s.toPlates);
    TotalNonNegative(VatRank(3), s.toMain);
    TotalNonNegative(PlateRank(), s.plates);
    TotalNonNegative(BoxRank(s.inboxes), s.ids);
  }

  lemma {:induction false} BoxesUpdate(inboxes: Inboxes, ids: seq<nat>, id: nat, mail: seq<Msg>)
    requires forall i, j :: 0 <= i < j < |ids| ==> ids[i] != ids[j]
    requires id in inboxes
    ensures Total(BoxRank(inboxes[id := mail]), ids) ==
            Total(BoxRank(inboxes), ids) + if id in ids then 7 * |mail| - 7 * |inboxes[id]| else 0
  {
    if ids != [] {
      BoxesUpdate(inboxes, ids[1..], id, mail);
      assert ids == [ids[0]] + ids[1..];
    }
  }

  // ---- Every step gets nearer to the end ----

  lemma DeliverFalls(s: State, cv: Vat)
    requires Registered(s.ids, s.inboxes) && s.main == Collecting && cv.id in s.ids && cv.outbox == []
    ensures Rank(Delivered(s, cv, Collecting)) <= Rank(s) + VatRank(0)(cv)
  {
    hide Total;
    var mail := s.inboxes[cv.id];
    if mail == [] {
      TotalSnoc(VatRank(0), s.sleeping, cv);
    } else {
      TotalSnoc(VatRank(5), s.toPlates, Collected(cv, mail));
      BoxesUpdate(s.inboxes, s.ids, cv.id, cv.outbox);
    }
  }

  lemma ReceiveFalls(s: State, vatFirst: bool)
    requires s.main.Selecting? || (s.main.Sorting? && (s.mail != [] || s.main.held.None?)) || (s.main.Collecting? && s.toMain == [])
    ensures MainStep(s, vatFirst) == s || Rank(MainStep(s, vatFirst)) < Rank(s)
  {
    hide Total;
    if s.toMain != [] {
      TotalHead(VatRank(3), s.toMain);
    }
  }

  lemma SortFalls(s: State, vatFirst: bool)
    requires Shaped(s) && (s.main.Triaging? || s.main.Filing?)
    ensures Rank(MainStep(s, vatFirst)) < Rank(s)
  {
    hide Total;
    if s.main.Triaging? {
      var k := Position(s.sleeping, s.main.msg.dst);
      if k < |s.sleeping| {
        TotalRemove(VatRank(0), s.sleeping, k);
        TotalSnoc(VatRank(5), s.toPlates, s.sleeping[k]);
      } else {
        assert s.toPlates + [] == s.toPlates;
      }
    } else {
      var id := s.main.msg.dst;
      BoxesUpdate(s.inboxes, s.ids, id, s.inboxes[id] + [s.main.msg]);
    }
  }

  lemma HeldSettled(s: State)
    requires Shaped(s)
    ensures Held(s.main).Some? ==> Held(s.main).value.outbox == []
    ensures s.toMain != [] ==> s.toMain[0].outbox == []
  {
  }

  lemma MainFalls(s: State, vatFirst: bool)
    requires Shaped(s)
    ensures MainStep(s, vatFirst) == s || Rank(MainStep(s, vatFirst)) < Rank(s)
  {
    VatsKnown(s);
    HeldSettled(s);
    if s.main.Triaging? || s.main.Filing? {
      SortFalls(s, vatFirst);
    } else {
      hide Shaped, Total, Delivered;
      if s.main.Sorting? && s.mail == [] && s.main.held.Some? {
        DeliverFalls(s.(main := Collecting), s.main.held.value);
        DeliverIgnoresMain(s, s.main.held.value);
      } else if s.main.Collecting? && s.toMain != [] {
        TotalHead(VatRank(3), s.toMain);
        DeliverFalls(s.(toMain := s.toMain[1..]), s.toMain[0]);
      } else {
        ReceiveFalls(s, vatFirst);
      }
    }
  }

  lemma {:induction false} FreshCount(dests: seq<nat>, first: nat)
    ensures |Fresh(dests, first)| == |dests|
  {
    if dests != [] {
      FreshCount(dests[1..], first + 1);
    }
  }

  lemma PlateFalls(s: State, p: nat, sends: seq<nat>, keeps: seq<nat>)
    requires p < |s.plates|
    ensures var s' := PlateStep(s, p, sends, keeps);
            s' == s || Rank(s') < Rank(s) + 20 * (s'.issued - s.issued)
  {
    hide Total;
    var s' := PlateStep(s, p, sends, keeps);
    TotalUpdate(PlateRank(), s.plates, p, s'.plates[p]);
    FreshCount(sends, s.issued);
    FreshCount(keeps, s.issued + |sends|);
    if s.toPlates != [] {
      TotalHead(VatRank(5), s.toPlates);
    }
    if s.plates[p].Running? {
      TotalSnoc(VatRank(3), s.toMain, s.plates[p].v);
    }
  }

  /** Whatever is done gets nearer to the end, but for the messages that a handler sends. */
  lemma StepFalls(s: State, m: Move)
    requires Inv(s) && CanMove(s, m)
    ensures Step(s, m) == s || Rank(Step(s, m)) < Rank(s) + 20 * (Step(s, m).issued - s.issued)
  {
    KeepsIds(s, m);
    match m
    case Main(vatFirst) => MainFalls(s, vatFirst);
    case Hotplate(p, sends, keeps) => PlateFalls(s, p, sends, keeps);
  }

  // ---- Nothing gets stuck ----

  ghost predicate Quiet(s: State) {
    && s.main == Selecting && s.mail == [] && s.toPlates == [] && s.toMain == []
    && forall p :: 0 <= p < |s.plates| ==> s.plates[p] == Free
  }

  /** As long as something is awake or on its way, something can be done, without any handler
      sending anything. */
  lemma GoesOn(s: State) returns (m: Move)
    requires Inv(s) && s.plates != [] && !Quiet(s)
    ensures CanMove(s, m) && Step(s, m) != s && Step(s, m).issued == s.issued
  {
    FiledMail(s);
    hide Inv, MainStep, PlateStep;
    if s.main != Selecting || s.mail != [] || s.toMain != [] {
      m := Main(s.mail == []);
      MainGoesOn(s, s.mail == []);
    } else if p :| 0 <= p < |s.plates| && s.plates[p] != Free {
      m := Hotplate(p, [], []);
      PlateGoesOn(s, p);
    } else {
      m := Hotplate(0, [], []);
      PlateGoesOn(s, 0);
    }
  }

  lemma MainGoesOn(s: State, vatFirst: bool)
    requires s.main.Filing? ==> s.main.msg.dst in s.inboxes
    requires s.main != Selecting || (if vatFirst then s.toMain != [] else s.mail != [])
    requires s.main.Collecting? && s.toMain != [] ==> s.toMain[0].id in s.inboxes
    ensures MainStep(s, vatFirst) != s && MainStep(s, vatFirst).issued == s.issued
  {
    var s' := MainStep(s, vatFirst);
    hide Wake;
    match s.main
    case Selecting => assert s'.main != s.main;
    case Sorting(_) => assert s'.main != s.main;
    case Triaging(_, _) => assert s'.main != s.main;
    case Filing(_, _) => assert s'.main != s.main;
    case Collecting => assert s.toMain == [] || s'.toMain == s.toMain[1..];
  }

  lemma PlateGoesOn(s: State, p: nat)
    requires p < |s.plates| && (s.plates[p] != Free || s.toPlates != [])
    ensures PlateStep(s, p, [], []).plates[p] != s.plates[p] && PlateStep(s, p, [], []).issued == s.issued
  {
  }

  lemma FiledMail(s: State)
    requires Inv(s)
    ensures s.main.Filing? ==> s.main.msg.dst in s.inboxes
    ensures s.toMain != [] ==> s.toMain[0].id in s.inboxes
  {
  }

  // ---- Whole runs ----

  /** How many of the first k steps did something. */
  function Worked(states: seq<State>, k: nat): nat
    requires k < |states|
  {
    if k == 0 then 0 else Worked(states, k - 1) + if states[k] == states[k - 1] then 0 else 1
  }

  /** At most three steps for each vat and twenty for each message that was ever sent: mail keeps
      the system busy for only so long, in whatever order the threads come. */
  lemma {:induction false} WorkBounded(states: seq<State>, moves: seq<Move>, k: nat)
    requires Execution(states, moves) && k < |states|
    ensures Worked(states, k) <= 3 * |states[0].ids| + 20 * states[k].issued
  {
    WorkRanked(states, moves, k);
    InitRank(states[0]);
    RankNatural(states[k]);
  }

  lemma {:induction false} WorkRanked(states: seq<State>, moves: seq<Move>, k: nat)
    requires Execution(states, moves) && k < |states|
    ensures Worked(states, k) + Rank(states[k]) <= Rank(states[0]) + 20 * (states[k].issued - states[0].issued)
  {
    hide Rank, Step, Init;
    if k > 0 {
      WorkRanked(states, moves, k - 1);
      Always(states, moves, k - 1);
      assert Follows(states[k - 1], moves[k - 1], states[k]);
      StepFalls(states[k - 1], moves[k - 1]);
    }
  }

  lemma InitRank(s: State)
    requires Init(s)
    ensures Rank(s) <= 3 * |s.ids| + 20 * s.issued
  {
    hide Total;
    TotalZero(VatRank(0), []);
    TotalZero(VatRank(5), []);
    TotalUniform(VatRank(3), s.toMain, 3);
    TotalZero(PlateRank(), s.plates);
    TotalZero(BoxRank(s.inboxes), s.ids);
  }

  ghost predicate Run(states: seq<State>, moves: seq<Move>) {
    && |states| == |moves| + 1
    && (forall k :: 0 <= k < |moves| ==> Follows(states[k], moves[k], states[k + 1]))
  }

  ghost predicate WasHandled(s: State, t: nat) {
    exists i :: 0 <= i < |s.handled| && s.handled[i].0.tag == t
  }

  /** From every reachable state the system can come to rest, and then all that was ever sent is handled. */
  lemma Drains(states: seq<State>, moves: seq<Move>, k: nat) returns (after: seq<State>, more: seq<Move>)
    requires Execution(states, moves) && k < |states| && states[k].plates != []
    ensures Run(after, more) && after[0] == states[k]
    ensures var r := after[|more|];
            && Quiet(r) && r.issued == states[k].issued
            && forall t: nat :: t < r.issued ==> WasHandled(r, t)
  {
    Always(states, moves, k);
    after, more := Rests(states[k]);
    var r := after[|more|];
    forall t: nat | t < r.issued
      ensures WasHandled(r, t)
    {
      assert Copies(r, t) == 1;
      QuietCopies(r, t);
      var i := TotalWitness(IsHandled(t), r.handled);
      assert r.handled[i].0.tag == t;
    }
  }

  lemma {:induction false} Rests(s: State) returns (states: seq<State>, moves: seq<Move>)
    requires Inv(s) && s.plates != []
    ensures Run(states, moves) && states[0] == s
    ensures var r := states[|moves|]; Inv(r) && Quiet(r) && r.issued == s.issued
    decreases Rank(s)
  {
    hide Inv, Rank, Step, CanMove, Quiet;
    if Quiet(s) {
      states, moves := [s], [];
    } else {
      var m := Nearer(s);
      var rest, more := Rests(Step(s, m));
      states, moves := [s] + rest, [m] + more;
      Prepended(s, m, rest, more);
    }
  }

  lemma Prepended(s: State, m: Move, states: seq<State>, moves: seq<Move>)
    requires Run(states, moves) && CanMove(s, m) && states[0] == Step(s, m)
    ensures Run([s] + states, [m] + moves) && ([s] + states)[|moves| + 1] == states[|moves|]
  {
    hide Step, CanMove;
    forall k | 0 <= k < |moves| + 1
      ensures Follows(([s] + states)[k], ([m] + moves)[k], ([s] + states)[k + 1])
    {
      if k > 0 {
        assert Follows(states[k - 1], moves[k - 1], states[k]);
      }
    }
  }

  lemma Nearer(s: State) returns (m: Move)
    requires Inv(s) && s.plates != [] && !Quiet(s)
    ensures CanMove(s, m) && Inv(Step(s, m)) && Step(s, m).issued == s.issued && Step(s, m).plates != []
    ensures 0 <= Rank(Step(s, m)) < Rank(s)
  {
    m := GoesOn(s);
    StepInv(s, m);
    StepFalls(s, m);
    RankNatural(Step(s, m));
    KeepsPlates(s, m);
    hide Inv, Rank, Step, CanMove, Quiet;
  }

  lemma KeepsPlates(s: State, m: Move)
    requires CanMove(s, m)
    ensures |Step(s, m).plates| == |s.plates|
  {
  }
}
