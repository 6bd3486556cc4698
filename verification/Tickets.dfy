/** The optimistic-ticket dequeue of a producer (archive/other_src/concurrentqueue.h:1960-2057,
    2252-2343): one producer moves the tail, any number of consumers draw tickets. Every
    atomic load and fetch-add is one step. Indices are unbounded here; the last section says
    when the wrapping comparisons of the code decide the same. */
module Tickets {
  import Circular
  import opened Tally

  // The next atomic operation of a consumer. dequeue is dequeue_bulk with max one:
  // both load the same variables in the same order and draw the same number of tickets.
  // base is written alongside and decides nothing: the tickets that had been drawn when the
  // consumer loaded the tail, without those then outstanding.
  datatype PC =
    | Idle
    | LoadOver(tail: nat, max: nat, base: int)                 // load dequeueOvercommit
    | LoadCount(tail: nat, over: nat, max: nat, base: int)     // load dequeueOptimisticCount and decide to try
    | Draw(over: nat, desired: nat, base: int)                 // dequeueOptimisticCount.fetch_add(desired)
    | Decide(over: nat, ticket: nat, desired: nat, base: int)  // reload the tail
    | GiveBack(extra: nat, actual: nat)             // dequeueOvercommit.fetch_add(extra)
    | Take(actual: nat)                             // headIndex.fetch_add(actual)

  // What became of a ticket.
  datatype Ticket = Pending(t: nat) | Won | Failed

  // drawn[k] is the fate of ticket k and taken[i] the consumer that got index i;
  // both are written alongside and decide nothing.
  datatype State = State(tail: nat, head: nat, optimistic: nat, overcommit: nat, pcs: seq<PC>,
                         drawn: seq<Ticket>, taken: seq<nat>)
  {
    function At(t: nat, p: PC): State
      requires t < |pcs|
    {
      this.(pcs := pcs[t := p])
    }
  }

  datatype Move = Enqueue | Dequeue(t: nat, max: nat)

  function Min(a: nat, b: nat): nat {
    if a < b then a else b
  }

  function Repeat<T>(x: T, n: nat): (s: seq<T>)
    ensures |s| == n && forall i :: 0 <= i < n ==> s[i] == x
  {
    if n == 0 then [] else [x] + Repeat(x, n - 1)
  }

  predicate CanMove(s: State, m: Move) {
    m.Dequeue? ==> m.t < |s.pcs|
  }

  /** drawn with the tickets of one consumer settled: the first actual won, the rest failed. */
  function Settle(drawn: seq<Ticket>, ticket: nat, desired: nat, actual: nat): (drawn': seq<Ticket>)
    requires ticket + desired <= |drawn| && actual <= desired
    ensures |drawn'| == |drawn|
    ensures forall u :: 0 <= u < |drawn| ==>
              drawn'[u] == if u < ticket || ticket + desired <= u then drawn[u]
                           else if u < ticket + actual then Won else Failed
  {
    drawn[..ticket] + Repeat(Won, actual) + Repeat(Failed, desired - actual) + drawn[ticket + desired..]
  }

  /** What a consumer has drawn and neither won nor counted as failed. */
  function Unsettled(): PC -> int {
    (p: PC) => if p.Decide? then p.desired else if p.GiveBack? then p.extra else 0
  }

  function Step(s: State, m: Move): State
    requires CanMove(s, m)
  {
    if m.Enqueue? then s.(tail := s.tail + 1)
    else
      match s.pcs[m.t]
      case Idle => s.At(m.t, LoadOver(s.tail, m.max, s.optimistic - Total(Unsettled(), s.pcs)))
      case LoadOver(tail, max, base) => s.At(m.t, LoadCount(tail, s.overcommit, max, base))
      case LoadCount(tail, over, max, base) =>
        var left: int := tail - (s.optimistic - over);
        s.At(m.t, if left > 0 then Draw(over, Min(left, max), base) else Idle)
      case Draw(over, desired, base) =>
        s.(optimistic := s.optimistic + desired, drawn := s.drawn + Repeat(Pending(m.t), desired))
         .At(m.t, Decide(over, s.optimistic, desired, base))
      case Decide(over, ticket, desired, _) =>
        var left: int := s.tail - (ticket - over);
        var actual := if left > 0 then Min(left, desired) else 0;
        s.(drawn := if ticket + desired <= |s.drawn| then Settle(s.drawn, ticket, desired, actual) else s.drawn)
         .At(m.t, if left > 0 && actual == desired then Take(actual) else GiveBack(desired - actual, actual))
      case GiveBack(extra, actual) =>
        s.(overcommit := s.overcommit + extra).At(m.t, if actual > 0 then Take(actual) else Idle)
      case Take(actual) =>
        s.(head := s.head + actual, taken := s.taken + Repeat(m.t, actual)).At(m.t, Idle)
  }

  // ---- Counting ----

  function IsFailed(): Ticket -> int {
    (x: Ticket) => if x == Failed then 1 else 0
  }

  function IsWon(): Ticket -> int {
    (x: Ticket) => if x == Won then 1 else 0
  }

  function IsPending(): Ticket -> int {
    (x: Ticket) => if x.Pending? then 1 else 0
  }

  function Fails(drawn: seq<Ticket>): int {
    Total(IsFailed(), drawn)
  }

  function Wins(drawn: seq<Ticket>): int {
    Total(IsWon(), drawn)
  }

  function Pendings(drawn: seq<Ticket>): int {
    Total(IsPending(), drawn)
  }

  function Owes(): PC -> int {
    (p: PC) => if p.GiveBack? then p.extra else 0
  }

  function Due(): PC -> int {
    (p: PC) => if p.GiveBack? || p.Take? then p.actual else 0
  }

  /** The overcommit snapshot of a consumer counts only failures below its ticket, and with the
      tail it saw makes up for the tickets settled by then. */
  predicate SnapshotInv(s: State, t: nat, p: PC) {
    match p
    case LoadOver(tail, _, base) => tail <= s.tail && base <= tail + s.overcommit
    case LoadCount(tail, over, _, base) => over <= Fails(s.drawn) && tail <= s.tail && base <= tail + over
    case Draw(over, _, base) => over <= Fails(s.drawn) && base <= s.tail + over
    case Decide(over, k, desired, base) =>
      && k + desired <= |s.drawn| && base <= s.tail + over
      && (forall u :: k <= u < k + desired ==> s.drawn[u] == Pending(t))
      && over <= Fails(s.drawn[..k])
    case _ => true
  }

  /** Had every ticket below u that did not fail been won, there would still be an item for u. */
  predicate WonInv(s: State, u: nat)
    requires u < |s.drawn|
  {
    s.drawn[u] == Won ==> u + 1 - Fails(s.drawn[..u]) <= s.tail
  }

  predicate PendingInv(s: State, u: nat)
    requires u < |s.drawn|
  {
    s.drawn[u].Pending? ==>
      var t := s.drawn[u].t;
      t < |s.pcs| && s.pcs[t].Decide? && s.pcs[t].ticket <= u < s.pcs[t].ticket + s.pcs[t].desired
  }

  predicate Inv(s: State) {
    && |s.drawn| == s.optimistic
    && |s.taken| == s.head
    && s.overcommit + Total(Owes(), s.pcs) == Fails(s.drawn)
    && s.head + Total(Due(), s.pcs) == Wins(s.drawn)
    && s.overcommit + Total(Unsettled(), s.pcs) == Fails(s.drawn) + Pendings(s.drawn)
    && (forall t :: 0 <= t < |s.pcs| ==> SnapshotInv(s, t, s.pcs[t]))
    && (forall u :: 0 <= u < |s.drawn| ==> WonInv(s, u))
    && (forall u :: 0 <= u < |s.drawn| ==> PendingInv(s, u))
  }

  predicate Init(s: State) {
    && s.tail == s.head == s.optimistic == s.overcommit == 0
    && s.drawn == [] && s.taken == []
    && (forall t :: 0 <= t < |s.pcs| ==> s.pcs[t] == Idle)
  }

  lemma InitInv(s: State)
    requires Init(s)
    ensures Inv(s)
  {
    TotalZero(Owes(), s.pcs);
    TotalZero(Due(), s.pcs);
    TotalZero(Unsettled(), s.pcs);
  }

  /** Settling tickets only adds failures. */
  lemma {:induction false} FailsGrow(drawn: seq<Ticket>, drawn': seq<Ticket>)
    requires |drawn| == |drawn'|
    requires forall u :: 0 <= u < |drawn| && drawn[u] == Failed ==> drawn'[u] == Failed
    ensures Fails(drawn) <= Fails(drawn')
  {
    if drawn != [] {
      FailsGrow(drawn[1..], drawn'[1..]);
    }
  }

  lemma FailsPrefix(drawn: seq<Ticket>, k: nat, u: nat)
    requires k <= u <= |drawn|
    ensures Fails(drawn[..k]) <= Fails(drawn[..u])
  {
    assert drawn[..u] == drawn[..k] + drawn[k..u];
    TotalConcat(IsFailed(), drawn[..k], drawn[k..u]);
    TotalNonNegative(IsFailed(), drawn[k..u]);
  }

  /** The heart of the protocol: wins never outnumber items. */
  lemma {:induction false} WinsBounded(drawn: seq<Ticket>, tail: nat)
    requires forall u :: 0 <= u < |drawn| && drawn[u] == Won ==> u + 1 - Fails(drawn[..u]) <= tail
    ensures Wins(drawn) <= tail
  {
    if drawn != [] {
      var last := |drawn| - 1;
      var rest := drawn[..last];
      assert drawn == rest + [drawn[last]];
      TotalConcat(IsWon(), rest, [drawn[last]]);
      if drawn[last] == Won {
        WinsAndFails(rest);
      } else {
        assert forall u :: 0 <= u < last ==> rest[..u] == drawn[..u];
        WinsBounded(rest, tail);
      }
    }
  }

  lemma {:induction false} WinsAndFails(drawn: seq<Ticket>)
    ensures Wins(drawn) + Fails(drawn) <= |drawn|
    ensures Wins(drawn) + Fails(drawn) + Pendings(drawn) == |drawn|
  {
    if drawn != [] {
      WinsAndFails(drawn[1..]);
    }
  }

  lemma SettleCounts(drawn: seq<Ticket>, ticket: nat, desired: nat, actual: nat)
    requires ticket + desired <= |drawn| && actual <= desired
    requires forall u :: ticket <= u < ticket + desired ==> drawn[u].Pending?
    ensures Wins(Settle(drawn, ticket, desired, actual)) == Wins(drawn) + actual
    ensures Fails(Settle(drawn, ticket, desired, actual)) == Fails(drawn) + desired - actual
    ensures Pendings(Settle(drawn, ticket, desired, actual)) == Pendings(drawn) - desired
  {
    hide Total;
    var won, failed := Repeat(Won, actual), Repeat(Failed, desired - actual);
    SettleTotal(IsWon(), drawn, ticket, desired, actual);
    TotalUniform(IsWon(), won, 1);
    TotalUniform(IsWon(), failed, 0);
    SettleTotal(IsFailed(), drawn, ticket, desired, actual);
    TotalUniform(IsFailed(), won, 0);
    TotalUniform(IsFailed(), failed, 1);
    WinsAndFails(drawn);
    WinsAndFails(Settle(drawn, ticket, desired, actual));
  }

  lemma SettleTotal(f: Ticket -> int, drawn: seq<Ticket>, ticket: nat, desired: nat, actual: nat)
    requires ticket + desired <= |drawn| && actual <= desired
    requires forall u :: ticket <= u < ticket + desired ==> f(drawn[u]) == 0
    ensures Total(f, Settle(drawn, ticket, desired, actual))
         == Total(f, drawn) + Total(f, Repeat(Won, actual)) + Total(f, Repeat(Failed, desired - actual))
  {
    hide Total;
    var a, b, c, d := drawn[..ticket], drawn[ticket..ticket + desired], Repeat(Won, actual), drawn[ticket + desired..];
    var e := Repeat(Failed, desired - actual);
    assert drawn == a + [] + b + d;
    TotalOfFour(f, a, [], b, d);
    TotalZero(f, []);
    TotalZero(f, b);
    TotalOfFour(f, a, c, e, d);
  }

  lemma TotalOfFour(f: Ticket -> int, a: seq<Ticket>, b: seq<Ticket>, c: seq<Ticket>, d: seq<Ticket>)
    ensures Total(f, a + b + c + d) == Total(f, a) + Total(f, b) + Total(f, c) + Total(f, d)
  {
    hide Total;
    TotalConcat(f, a + b + c, d);
    TotalConcat(f, a + b, c);
    TotalConcat(f, a, b);
  }

  lemma WinsUpTo(s: State)
    requires Inv(s)
    ensures Wins(s.drawn) <= s.tail
  {
    forall u | 0 <= u < |s.drawn| && s.drawn[u] == Won
      ensures u + 1 - Fails(s.drawn[..u]) <= s.tail
    {
      assert WonInv(s, u);
    }
    WinsBounded(s.drawn, s.tail);
  }

  /** A step that settles or draws no ticket. */
  lemma StepQuiet(s: State, m: Move)
    requires Inv(s) && CanMove(s, m)
    requires m.Dequeue? ==> !s.pcs[m.t].Draw? && !s.pcs[m.t].Decide?
    ensures Inv(Step(s, m))
  {
    hide Total;
    var s' := Step(s, m);
    if m.Dequeue? {
      TotalUpdate(Owes(), s.pcs, m.t, s'.pcs[m.t]);
      TotalUpdate(Due(), s.pcs, m.t, s'.pcs[m.t]);
      TotalUpdate(Unsettled(), s.pcs, m.t, s'.pcs[m.t]);
      WinsAndFails(s.drawn);
      WinsUpTo(s);
      TotalNonNegative(Owes(), s.pcs);
    }
    forall u | 0 <= u < |s.drawn|
      ensures WonInv(s', u) && PendingInv(s', u)
    {
      assert WonInv(s, u) && PendingInv(s, u);
    }
    forall v | 0 <= v < |s.pcs|
      ensures SnapshotInv(s', v, s'.pcs[v])
    {
      assert SnapshotInv(s, v, s.pcs[v]);
    }
  }

  lemma StepDraw(s: State, m: Move)
    requires Inv(s) && CanMove(s, m) && m.Dequeue? && s.pcs[m.t].Draw?
    ensures Inv(Step(s, m))
  {
    hide Total;
    var t, s' := m.t, Step(s, m);
    var p, p' := s.pcs[t], s'.pcs[t];
    assert SnapshotInv(s, t, p);
    TotalUpdate(Owes(), s.pcs, t, p');
    TotalUpdate(Due(), s.pcs, t, p');
    TotalUpdate(Unsettled(), s.pcs, t, p');
    var issued := Repeat(Pending(t), p.desired);
    TotalConcat(IsFailed(), s.drawn, issued);
    TotalConcat(IsWon(), s.drawn, issued);
    TotalConcat(IsPending(), s.drawn, issued);
    TotalUniform(IsPending(), issued, 1);
    TotalZero(IsFailed(), issued);
    TotalZero(IsWon(), issued);
    assert forall u :: 0 <= u <= |s.drawn| ==> s'.drawn[..u] == s.drawn[..u];
    assert s.drawn[..|s.drawn|] == s.drawn;
    forall u | 0 <= u < |s'.drawn|
      ensures WonInv(s', u) && PendingInv(s', u)
    {
      assert u < |s.drawn| ==> WonInv(s, u) && PendingInv(s, u);
    }
    forall v | 0 <= v < |s.pcs|
      ensures SnapshotInv(s', v, s'.pcs[v])
    {
      assert SnapshotInv(s, v, s.pcs[v]);
    }
  }

  lemma DecideGrows(s: State, m: Move, u: nat)
    requires Inv(s) && CanMove(s, m) && m.Dequeue? && s.pcs[m.t].Decide? && u <= |s.drawn|
    ensures |Step(s, m).drawn| == |s.drawn|
    ensures Fails(s.drawn[..u]) <= Fails(Step(s, m).drawn[..u])
  {
    assert SnapshotInv(s, m.t, s.pcs[m.t]);
    FailsGrow(s.drawn[..u], Step(s, m).drawn[..u]);
  }

  lemma DecideWon(s: State, m: Move, u: nat)
    requires Inv(s) && CanMove(s, m) && m.Dequeue? && s.pcs[m.t].Decide? && u < |s.drawn|
    ensures |Step(s, m).drawn| == |s.drawn|
    ensures WonInv(Step(s, m), u) && PendingInv(Step(s, m), u)
  {
    var s', p := Step(s, m), s.pcs[m.t];
    assert SnapshotInv(s, m.t, p);
    assert WonInv(s, u) && PendingInv(s, u);
    DecideGrows(s, m, u);
    if p.ticket <= u < p.ticket + p.desired {
      DecideGrows(s, m, p.ticket);
      FailsPrefix(s'.drawn, p.ticket, u);
    }
  }

  lemma DecideSnapshot(s: State, m: Move, v: nat)
    requires Inv(s) && CanMove(s, m) && m.Dequeue? && s.pcs[m.t].Decide? && v < |s.pcs|
    ensures SnapshotInv(Step(s, m), v, Step(s, m).pcs[v])
  {
    var s', p, q := Step(s, m), s.pcs[m.t], s.pcs[v];
    assert SnapshotInv(s, m.t, p) && SnapshotInv(s, v, q);
    DecideGrows(s, m, |s.drawn|);
    assert s.drawn[..|s.drawn|] == s.drawn && s'.drawn[..|s.drawn|] == s'.drawn;
    if v != m.t && q.Decide? {
      DecideGrows(s, m, q.ticket);
      forall u | q.ticket <= u < q.ticket + q.desired
        ensures s'.drawn[u] == Pending(v)
      {
        assert s.drawn[u] == Pending(v);
      }
    }
  }

  lemma StepDecide(s: State, m: Move)
    requires Inv(s) && CanMove(s, m) && m.Dequeue? && s.pcs[m.t].Decide?
    ensures Inv(Step(s, m))
  {
    hide Total;
    var t, s' := m.t, Step(s, m);
    var p, p' := s.pcs[t], s'.pcs[t];
    assert SnapshotInv(s, t, p);
    TotalUpdate(Owes(), s.pcs, t, p');
    TotalUpdate(Due(), s.pcs, t, p');
    TotalUpdate(Unsettled(), s.pcs, t, p');
    SettleCounts(s.drawn, p.ticket, p.desired, p'.actual);
    forall u | 0 <= u < |s.drawn|
      ensures WonInv(s', u) && PendingInv(s', u)
    {
      DecideWon(s, m, u);
    }
    forall v | 0 <= v < |s.pcs|
      ensures SnapshotInv(s', v, s'.pcs[v])
    {
      DecideSnapshot(s, m, v);
    }
  }

  lemma StepInv(s: State, m: Move)
    requires Inv(s) && CanMove(s, m)
    ensures Inv(Step(s, m))
  {
    if m.Dequeue? && s.pcs[m.t].Draw? {
      StepDraw(s, m);
    } else if m.Dequeue? && s.pcs[m.t].Decide? {
      StepDecide(s, m);
    } else {
      StepQuiet(s, m);
    }
  }

  // ---- Whole runs ----

  predicate Execution(states: seq<State>, moves: seq<Move>) {
    && |states| == |moves| + 1
    && Init(states[0])
    && (forall k :: 0 <= k < |moves| ==> Follows(states[k], moves[k], states[k + 1]))
  }

  predicate Follows(s: State, m: Move, s': State) {
    CanMove(s, m) && s' == Step(s, m)
  }

  lemma {:induction false} Always(states: seq<State>, moves: seq<Move>, k: nat)
    requires Execution(states, moves) && k < |states|
    ensures Inv(states[k])
  {
    if k == 0 {
      InitInv(states[0]);
    } else {
      Always(states, moves, k - 1);
      assert Follows(states[k - 1], moves[k - 1], states[k]);
      StepInv(states[k - 1], moves[k - 1]);
    }
  }

  /** The head never passes the tail, not even counting consumers that have already
      decided to take and have not yet moved the head. */
  lemma HeadNeverPassesTail(states: seq<State>, moves: seq<Move>, k: nat)
    requires Execution(states, moves) && k < |states|
    ensures states[k].head + Total(Due(), states[k].pcs) <= states[k].tail
    ensures states[k].head <= states[k].tail
  {
    Always(states, moves, k);
    WinsUpTo(states[k]);
    TotalNonNegative(Due(), states[k].pcs);
  }

  /** Whoever takes gets the next indices, all below the tail, and keeps them for good:
      each index goes to exactly one consumer. */
  lemma TakesFreshIndices(states: seq<State>, moves: seq<Move>, i: nat, j: nat)
    requires Execution(states, moves) && i < |moves| && i < j <= |moves|
    requires moves[i].Dequeue? && moves[i].t < |states[i].pcs| && states[i].pcs[moves[i].t].Take?
    ensures var s, actual := states[i], states[i].pcs[moves[i].t].actual;
            && |s.taken| == s.head && s.head + actual <= s.tail
            && |states[j].taken| >= s.head + actual
            && states[j].taken[..s.head] == s.taken
            && (forall index :: s.head <= index < s.head + actual ==> states[j].taken[index] == moves[i].t)
  {
    Always(states, moves, i);
    HeadNeverPassesTail(states, moves, i);
    assert Follows(states[i], moves[i], states[i + 1]);
    TotalCovers(Due(), states[i].pcs, moves[i].t);
    TakenKept(states, moves, i + 1, j);
  }

  lemma {:induction false} TakenKept(states: seq<State>, moves: seq<Move>, i: nat, j: nat)
    requires Execution(states, moves) && i <= j <= |moves|
    ensures states[i].taken <= states[j].taken
    decreases j
  {
    if i < j {
      TakenKept(states, moves, i, j - 1);
      assert Follows(states[j - 1], moves[j - 1], states[j]);
    }
  }

  /** n steps of one consumer with nobody else moving. */
  function Alone(s: State, t: nat, max: nat, n: nat): (s': State)
    requires t < |s.pcs|
    ensures |s'.pcs| == |s.pcs|
    decreases n
  {
    if n == 0 then s else Alone(Step(s, Dequeue(t, max)), t, max, n - 1)
  }

  /** The counters are eventually consistent: once every consumer is idle, the next one
      to run, undisturbed, takes exactly what is there, up to what it asked for. */
  lemma LoneDequeueIsExact(states: seq<State>, moves: seq<Move>, k: nat, t: nat, max: nat)
    requires Execution(states, moves) && k < |states| && t < |states[k].pcs|
    requires forall v :: 0 <= v < |states[k].pcs| ==> states[k].pcs[v] == Idle
    ensures states[k].head <= states[k].tail
    ensures var s := states[k];
            var n := Min(s.tail - s.head, max);
            exists steps :: 3 <= steps <= 7 && Alone(s, t, max, steps).pcs[t] == Idle
                         && Alone(s, t, max, steps).taken == s.taken + Repeat(t, n)
                         && Alone(s, t, max, steps).head == s.head + n
  {
    Always(states, moves, k);
    HeadNeverPassesTail(states, moves, k);
    var s := states[k];
    TotalZero(Owes(), s.pcs);
    TotalZero(Due(), s.pcs);
    TotalZero(Unsettled(), s.pcs);
    WinsAndFails(s.drawn);
    LoneSteps(s, t, max);
  }

  lemma LoneSteps(s: State, t: nat, max: nat)
    requires t < |s.pcs| && s.pcs[t] == Idle && |s.drawn| == s.optimistic
    requires s.optimistic - s.overcommit == s.head <= s.tail
    ensures var n := Min(s.tail - s.head, max);
            exists steps :: 3 <= steps <= 7 && Alone(s, t, max, steps).pcs[t] == Idle
                         && Alone(s, t, max, steps).taken == s.taken + Repeat(t, n)
                         && Alone(s, t, max, steps).head == s.head + n
  {
    var d := Dequeue(t, max);
    var s1 := Step(s, d);
    var s2 := Step(s1, d);
    var s3 := Step(s2, d);
    assert Alone(s, t, max, 3) == Alone(s1, t, max, 2) == Alone(s2, t, max, 1) == Alone(s3, t, max, 0);
    if s.tail == s.head {
      assert s3.pcs[t] == Idle;
      assert Alone(s, t, max, 3).taken == s.taken + Repeat(t, 0);
    } else {
      var s4 := Step(s3, d);
      var s5 := Step(s4, d);
      var s6 := Step(s5, d);
      assert s4.pcs[t] == Decide(s.overcommit, s.optimistic, Min(s.tail - s.head, max), s4.pcs[t].base);
      assert s6.pcs[t] == Idle;
      assert Alone(s3, t, max, 3) == Alone(s4, t, max, 2) == Alone(s5, t, max, 1) == Alone(s6, t, max, 0);
      assert Alone(s, t, max, 6) == Alone(s1, t, max, 5) == Alone(s2, t, max, 4) == Alone(s3, t, max, 3);
    }
  }

  // ---- Wrapped indices ----

  /** What dequeue decides from what it has loaded, on 64-bit indices. */
  predicate Tries(tail: nat, count: nat, over: nat) {
    Circular.CircularLessThan(Circular.Wrap(Circular.Wrap(count) - Circular.Wrap(over)), Circular.Wrap(tail))
  }

  /** desiredCount or actualCount of dequeue_bulk. */
  function Left(tail: nat, count: nat, over: nat): int {
    Circular.Wrap(Circular.Wrap(tail) - Circular.Wrap(Circular.Wrap(count) - Circular.Wrap(over)))
  }

  /** Within half the range both decide as the unbounded indices do, and Left is what is left. */
  lemma WrappedAgrees(tail: nat, count: nat, over: nat)
    requires -Circular.HALF <= tail - (count - over) < Circular.HALF
    ensures Tries(tail, count, over) <==> tail - (count - over) > 0
    ensures Circular.CircularLessThan(0, Left(tail, count, over)) <==> tail - (count - over) > 0
    ensures tail - (count - over) > 0 ==> Left(tail, count, over) == tail - (count - over)
  {
    var left := tail - (count - over);
    Circular.WrapDifference(count, over);
    Circular.AgreesWithOrder(count - over, tail);
    Circular.WrapDifference(tail, count - over);
    if left >= 0 {
      Circular.DistanceSurvives(count - over, tail);
    }
    Circular.AgreesWithOrder(0, left);
    Circular.WrapDifference(0, left);
    Circular.WrapDifference(0, Circular.Wrap(left));
  }

  /** What a consumer compares when it decides to try: never more than there is in the queue, nor less
      than minus the tickets then outstanding and those drawn since it loaded the tail. */
  lemma FirstOperands(states: seq<State>, moves: seq<Move>, k: nat, t: nat)
    requires Execution(states, moves) && k < |states| && t < |states[k].pcs| && states[k].pcs[t].LoadCount?
    ensures var s, p := states[k], states[k].pcs[t];
            p.base - s.optimistic <= p.tail - (s.optimistic - p.over) <= s.tail - s.head
  {
    Always(states, moves, k);
    var s := states[k];
    assert SnapshotInv(s, t, s.pcs[t]);
    WinsAndFails(s.drawn);
    TotalNonNegative(Due(), s.pcs);
  }

  /** And when it decides whether to take: never more than there is in the queue and has been drawn
      since it drew, itself included. */
  lemma SecondOperands(states: seq<State>, moves: seq<Move>, k: nat, t: nat)
    requires Execution(states, moves) && k < |states| && t < |states[k].pcs| && states[k].pcs[t].Decide?
    ensures var s, p := states[k], states[k].pcs[t];
            p.base - p.ticket <= s.tail - (p.ticket - p.over) <= s.tail - s.head + (s.optimistic - p.ticket)
  {
    Always(states, moves, k);
    var s, p := states[k], states[k].pcs[t];
    assert SnapshotInv(s, t, p);
    WinsAndFails(s.drawn[..p.ticket]);
    WinsAndFails(s.drawn[p.ticket..]);
    assert s.drawn == s.drawn[..p.ticket] + s.drawn[p.ticket..];
    TotalConcat(IsWon(), s.drawn[..p.ticket], s.drawn[p.ticket..]);
    TotalNonNegative(IsFailed(), s.drawn[p.ticket..]);
    TotalNonNegative(IsPending(), s.drawn[..p.ticket]);
    TotalNonNegative(IsPending(), s.drawn[p.ticket..]);
    TotalNonNegative(Due(), s.pcs);
  }

  /** So as long as the queue holds less than half the range and no consumer sleeps while half the range
      of tickets is drawn, both wrapped comparisons decide as in Step, at every step of every run. */
  lemma WrappingIsHarmless(states: seq<State>, moves: seq<Move>, k: nat, t: nat)
    requires Execution(states, moves) && k < |states| && t < |states[k].pcs|
    requires var s, p := states[k], states[k].pcs[t];
             && (p.LoadCount? ==> s.tail - s.head < Circular.HALF && s.optimistic - p.base <= Circular.HALF)
             && (p.Decide? ==> s.tail - s.head + (s.optimistic - p.ticket) < Circular.HALF && p.ticket - p.base <= Circular.HALF)
    ensures var s, p := states[k], states[k].pcs[t];
            && (p.LoadCount? ==>
                  var left := p.tail - (s.optimistic - p.over);
                  && (Tries(p.tail, s.optimistic, p.over) <==> left > 0)
                  && (Circular.CircularLessThan(0, Left(p.tail, s.optimistic, p.over)) <==> left > 0)
                  && (left > 0 ==> Left(p.tail, s.optimistic, p.over) == left))
            && (p.Decide? ==>
                  var left := s.tail - (p.ticket - p.over);
                  && (Tries(s.tail, p.ticket, p.over) <==> left > 0)
                  && (Circular.CircularLessThan(0, Left(s.tail, p.ticket, p.over)) <==> left > 0)
                  && (left > 0 ==> Left(s.tail, p.ticket, p.over) == left))
  {
    var s, p := states[k], states[k].pcs[t];
    if p.LoadCount? {
      FirstOperands(states, moves, k, t);
      WrappedAgrees(p.tail, s.optimistic, p.over);
    } else if p.Decide? {
      SecondOperands(states, moves, k, t);
      WrappedAgrees(s.tail, p.ticket, p.over);
    }
  }
}
