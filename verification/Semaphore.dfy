/** LightweightSemaphore (archive/other_src/lightweightsemaphore.h:266-423): a signed
    counter in front of a kernel semaphore. Every atomic operation and every kernel
    operation is one step; the kernel semaphore is a counter of posted tokens, and a
    timeout may strike at any time. */
module Semaphore {
  import opened Tally

  // max permits wanted, whether the caller is prepared to wait, and what it already has.
  datatype Goal = Goal(max: nat, blocking: bool, held: nat)

  datatype PC =
    | Idle
    | TryLoad(g: Goal)                        // tryWait, tryWaitMany: load
    | TryCas(g: Goal, seen: nat)               //   weak CAS, reloads on failure
    | SpinLoad(g: Goal, spins: nat)           // the spinning part of a wait: load
    | SpinCas(g: Goal, spins: nat, seen: nat)  //   strong CAS
    | Sub(g: Goal)                            // fetch_sub(1)
    | Blocked(g: Goal)                        // kernel wait
    | UndoLoad(g: Goal)                       // timed out: load
    | UndoTry(g: Goal, loaded: int)            //   kernel try_wait, or CAS back up
    | GotOne(g: Goal)                         // one permit in hand, perhaps more to try
    | Done(got: nat)                          // return
    | Raise(n: nat)                           // signal: fetch_add(n)
    | Post(n: nat)                            //   n kernel posts to go

  // What an idle thread starts. wait and tryWait are the case max == 1.
  datatype Call = Wait(max: nat) | TryWait(max: nat) | Signal(n: nat) | Pass

  // Go is the ordinary outcome; Flake is a spurious CAS failure or a timeout.
  datatype Choice = Start(call: Call, spins: nat) | Go | Flake

  // count is m_count and tokens the kernel semaphore; signalled and acquired are
  // running totals that decide nothing.
  datatype Shared = Shared(count: int, tokens: nat, signalled: nat, acquired: nat)

  /** oldCount - newCount: greedily as many as wanted. */
  function Greedy(seen: nat, max: nat): nat {
    if seen > max then max else seen
  }

  /** tryWaitMany came back empty-handed: give up, or go on to spin. */
  function AfterTry(g: Goal, spins: nat): PC {
    if g.blocking && g.max > 0 then SpinLoad(g, spins) else Done(g.held)
  }

  function Grant(sh: Shared, taken: nat): Shared {
    sh.(acquired := sh.acquired + taken)
  }

  /** One atomic operation of a thread at p. */
  function Advance(sh: Shared, p: PC, c: Choice): (Shared, PC) {
    match p
    case Idle =>
      if c.Start? then
        match c.call
        case Wait(max) => (sh, TryLoad(Goal(max, true, 0)))
        case TryWait(max) => (sh, TryLoad(Goal(max, false, 0)))
        case Signal(n) => (sh, Raise(n))
        case Pass => (sh, Idle)
      else (sh, Idle)
    case TryLoad(g) =>
      (sh, if sh.count > 0 then TryCas(g, sh.count) else AfterTry(g, if c.Start? then c.spins else 0))
    case TryCas(g, seen) =>
      if c.Flake? || sh.count != seen then
        (sh, if sh.count > 0 then TryCas(g, sh.count) else AfterTry(g, if c.Start? then c.spins else 0))
      else
        var taken := Greedy(seen, g.max);
        (Grant(sh.(count := seen - taken), taken), Done(g.held + taken))
    case SpinLoad(g, spins) =>
      if spins == 0 then (sh, Sub(g))
      else (sh, if sh.count > 0 then SpinCas(g, spins - 1, sh.count) else SpinLoad(g, spins - 1))
    case SpinCas(g, spins, seen) =>
      if sh.count != seen then (sh, SpinLoad(g, spins))
      else
        var taken := Greedy(seen, g.max);
        (Grant(sh.(count := seen - taken), taken), Done(taken))
    case Sub(g) =>
      if sh.count > 0 then (Grant(sh.(count := sh.count - 1), 1), GotOne(g))
      else (sh.(count := sh.count - 1), Blocked(g))
    case Blocked(g) =>
      if c.Flake? then (sh, UndoLoad(g))
      else if sh.tokens > 0 then (Grant(sh.(tokens := sh.tokens - 1), 1), GotOne(g))
      else (sh, p)
    case UndoLoad(g) =>
      (sh, UndoTry(g, sh.count))
    case UndoTry(g, loaded) =>
      if loaded >= 0 then
        if sh.tokens > 0 then (Grant(sh.(tokens := sh.tokens - 1), 1), GotOne(g)) else (sh, UndoLoad(g))
      else if sh.count == loaded then (sh.(count := loaded + 1), Done(0))
      else (sh, UndoLoad(g))
    case GotOne(g) =>
      (sh, if g.max > 1 then TryLoad(Goal(g.max - 1, false, 1)) else Done(1))
    case Done(_) =>
      (sh, Idle)
    case Raise(n) =>
      var release: int := if -sh.count < n then -sh.count else n;
      (sh.(count := sh.count + n, signalled := sh.signalled + n), if release > 0 then Post(release) else Idle)
    case Post(n) =>
      if n == 0 then (sh, Idle)
      else (sh.(tokens := sh.tokens + 1), if n > 1 then Post(n - 1) else Idle)
  }

  datatype State = State(sh: Shared, pcs: seq<PC>)

  function Step(s: State, t: nat, c: Choice): State
    requires t < |s.pcs|
  {
    var (sh, p) := Advance(s.sh, s.pcs[t], c);
    State(sh, s.pcs[t := p])
  }

  // ---- The counting invariant ----

  /** Past a fetch_sub that found no permit, and neither served nor undone. */
  function Waits(): PC -> int {
    (p: PC) => if p.Blocked? || p.UndoLoad? || p.UndoTry? then 1 else 0
  }

  /** Releases computed by signal and not yet posted to the kernel semaphore. */
  function Unposted(): PC -> int {
    (p: PC) => if p.Post? then p.n else 0
  }

  function Waiters(s: State): int {
    Total(Waits(), s.pcs)
  }

  function Pending(s: State): int {
    Total(Unposted(), s.pcs)
  }

  function Deficit(count: int): int {
    if count < 0 then -count else 0
  }

  predicate Inv(s: State, initial: nat) {
    && Waiters(s) == Deficit(s.sh.count) + s.sh.tokens + Pending(s)
    && initial + s.sh.signalled - s.sh.acquired == s.sh.count + Waiters(s)
  }

  predicate Init(s: State, initial: nat) {
    && s.sh == Shared(initial, 0, 0, 0)
    && (forall t :: 0 <= t < |s.pcs| ==> s.pcs[t] == Idle)
  }

  lemma InitInv(s: State, initial: nat)
    requires Init(s, initial)
    ensures Inv(s, initial)
  {
    TotalZero(Waits(), s.pcs);
    TotalZero(Unposted(), s.pcs);
  }

  /** What one operation changes in the books, thread by thread. */
  lemma AdvanceBalances(sh: Shared, p: PC, c: Choice)
    ensures var (sh', p') := Advance(sh, p, c);
            && Deficit(sh'.count) + sh'.tokens + Unposted()(p') - Waits()(p')
               == Deficit(sh.count) + sh.tokens + Unposted()(p) - Waits()(p)
            && sh'.signalled - sh'.acquired - sh'.count - Waits()(p')
               == sh.signalled - sh.acquired - sh.count - Waits()(p)
  {
  }

  lemma StepInv(s: State, t: nat, c: Choice, initial: nat)
    requires Inv(s, initial) && t < |s.pcs|
    ensures Inv(Step(s, t, c), initial)
  {
    var p' := Step(s, t, c).pcs[t];
    AdvanceBalances(s.sh, s.pcs[t], c);
    TotalUpdate(Waits(), s.pcs, t, p');
    TotalUpdate(Unposted(), s.pcs, t, p');
  }

  predicate Execution(states: seq<State>, moves: seq<(nat, Choice)>, initial: nat) {
    && |states| == |moves| + 1
    && Init(states[0], initial)
    && (forall k :: 0 <= k < |moves| ==> Follows(states[k], moves[k], states[k + 1]))
  }

  predicate Follows(s: State, move: (nat, Choice), s': State) {
    move.0 < |s.pcs| && s' == Step(s, move.0, move.1)
  }

  /** In every interleaving, at every step: the threads waiting are exactly the deficit of
      the counter plus the tokens posted or about to be posted, and the permits not handed
      out are exactly the counter plus those waiters. */
  lemma {:induction false} Always(states: seq<State>, moves: seq<(nat, Choice)>, initial: nat, k: nat)
    requires Execution(states, moves, initial) && k < |states|
    ensures Inv(states[k], initial)
  {
    if k == 0 {
      InitInv(states[0], initial);
    } else {
      Always(states, moves, initial, k - 1);
      assert Follows(states[k - 1], moves[k - 1], states[k]);
      StepInv(states[k - 1], moves[k - 1].0, moves[k - 1].1, initial);
    }
  }

  /** Permits are never over-granted. */
  lemma NeverOvergrants(states: seq<State>, moves: seq<(nat, Choice)>, initial: nat, k: nat)
    requires Execution(states, moves, initial) && k < |states|
    ensures states[k].sh.acquired <= initial + states[k].sh.signalled
  {
    Always(states, moves, initial, k);
    TotalNonNegative(Unposted(), states[k].pcs);
  }

  /** A timed-out waiter that sees the counter at zero or above has a token to take:
      one is posted, or a signalling thread is about to post it. */
  lemma UndoFindsToken(states: seq<State>, moves: seq<(nat, Choice)>, initial: nat, k: nat, t: nat)
    requires Execution(states, moves, initial) && k < |states| && t < |states[k].pcs|
    requires states[k].pcs[t].UndoLoad? && states[k].sh.count >= 0
    ensures states[k].sh.tokens > 0 || exists v :: 0 <= v < |states[k].pcs| && states[k].pcs[v].Post?
  {
    Always(states, moves, initial, k);
    var s := states[k];
    TotalCovers(Waits(), s.pcs, t);
    if s.sh.tokens == 0 {
      var v := TotalWitness(Unposted(), s.pcs);
    }
  }

  /** A timed-out waiter needs two operations of its own to end, with a permit after all or with the
      counter put back, unless another thread moves in between or is in the middle of a signal. */
  lemma UndoEnds(states: seq<State>, moves: seq<(nat, Choice)>, initial: nat, k: nat, t: nat)
    requires Execution(states, moves, initial) && k < |states| && t < |states[k].pcs|
    requires states[k].pcs[t].UndoLoad?
    requires forall v :: 0 <= v < |states[k].pcs| ==> !states[k].pcs[v].Post?
    ensures var s, g := states[k], states[k].pcs[t].g;
            var (sh, p) := (Step(Step(s, t, Go), t, Go).sh, Step(Step(s, t, Go), t, Go).pcs[t]);
            if s.sh.count >= 0
            then p == GotOne(g) && s.sh.tokens > 0 && sh == s.sh.(tokens := s.sh.tokens - 1, acquired := s.sh.acquired + 1)
            else p == Done(0) && sh == s.sh.(count := s.sh.count + 1)
  {
    if states[k].sh.count >= 0 {
      UndoFindsToken(states, moves, initial, k, t);
    }
  }

  /** No lost wake-up: if threads are blocked in the kernel with no token to take and nobody
      is in the middle of a signal or an undo, then every permit has been handed out. */
  lemma BlockedMeansExhausted(states: seq<State>, moves: seq<(nat, Choice)>, initial: nat, k: nat, t: nat)
    requires Execution(states, moves, initial) && k < |states| && t < |states[k].pcs|
    requires states[k].pcs[t].Blocked? && states[k].sh.tokens == 0
    requires forall v :: 0 <= v < |states[k].pcs| ==> !states[k].pcs[v].Post?
    ensures states[k].sh.acquired == initial + states[k].sh.signalled
  {
    Always(states, moves, initial, k);
    var s := states[k];
    TotalCovers(Waits(), s.pcs, t);
    TotalZero(Unposted(), s.pcs);
  }

  // ---- What the operations answer ----

  function Least(a: nat, b: nat): nat {
    if a <= b then a else b
  }

  /** tryWait and tryWaitMany give up, or go on to spin, only at a moment when there is no permit. */
  lemma RefusedAtZero(sh: Shared, p: PC, c: Choice)
    requires p.TryLoad? || p.TryCas?
    ensures var (sh', p') := Advance(sh, p, c);
            !p'.TryCas? && sh'.acquired == sh.acquired && p.g.max > 0 ==> sh.count <= 0 && sh' == sh
  {
  }

  /** And a spinning waiter goes on to its fetch_sub, or loads again, only if there was none or the
      counter has changed since it was loaded. */
  lemma SpinsAtZero(sh: Shared, p: PC, c: Choice)
    requires p.SpinLoad? || (p.SpinCas? && p.seen > 0)
    ensures var (sh', p') := Advance(sh, p, c);
            !p'.SpinCas? && sh'.acquired == sh.acquired && p.g.max > 0 ==>
              sh' == sh && (if p.SpinCas? then sh.count != p.seen else p.spins == 0 || sh.count <= 0)
  {
  }

  /** n steps of one thread with nobody else moving and nothing spurious. */
  function Alone(s: State, t: nat, n: nat): (s': State)
    requires t < |s.pcs|
    ensures |s'.pcs| == |s.pcs|
    decreases n
  {
    if n == 0 then s else Alone(Step(s, t, Go), t, n - 1)
  }

  lemma AloneTwice(s: State, t: nat)
    requires t < |s.pcs|
    ensures Alone(s, t, 1) == Step(s, t, Go)
    ensures Alone(s, t, 2) == Step(Step(s, t, Go), t, Go)
    ensures Alone(s, t, 3) == Step(Step(Step(s, t, Go), t, Go), t, Go)
  {
    assert Alone(s, t, 3) == Alone(Step(s, t, Go), t, 2) == Alone(Step(Step(s, t, Go), t, Go), t, 1);
  }

  /** Some permits were handed over, and nothing else has changed. */
  function Served(s: State, t: nat, taken: nat, p: PC): State
    requires t < |s.pcs|
  {
    State(s.sh.(count := s.sh.count - taken, acquired := s.sh.acquired + taken), s.pcs[t := p])
  }

  /** Undisturbed, whoever asks gets as many permits as there are, up to what was asked for. */
  lemma LoneTryTakes(s: State, t: nat, max: nat, blocking: bool, spins: nat)
    requires t < |s.pcs| && s.pcs[t] == Idle && s.sh.count > 0 && max > 0
    ensures var n := Least(s.sh.count, max);
            Alone(Step(s, t, Start(if blocking then Wait(max) else TryWait(max), spins)), t, 2) == Served(s, t, n, Done(n))
  {
    var s1 := Step(s, t, Start(if blocking then Wait(max) else TryWait(max), spins));
    AloneTwice(s1, t);
    assert s1.pcs[t := TryLoad(Goal(max, blocking, 0))] == s1.pcs;
  }

  /** A tryWait that finds none is refused and has changed nothing. */
  lemma LoneTryRefused(s: State, t: nat, max: nat, spins: nat)
    requires t < |s.pcs| && s.pcs[t] == Idle && s.sh.count <= 0
    ensures Alone(Step(s, t, Start(TryWait(max), spins)), t, 1) == Served(s, t, 0, Done(0))
  {
    AloneTwice(Step(s, t, Start(TryWait(max), spins)), t);
  }

  /** With one permit in hand, a thread takes what there is of the rest. */
  lemma LoneRestTakes(s: State, t: nat, g: Goal)
    requires t < |s.pcs| && s.pcs[t] == GotOne(g) && g.max > 0
    ensures var n := if s.sh.count > 0 then Least(s.sh.count, g.max - 1) else 0;
            exists steps :: 1 <= steps <= 3 && Alone(s, t, steps) == Served(s, t, n, Done(1 + n))
  {
    AloneTwice(s, t);
    var n := if s.sh.count > 0 then Least(s.sh.count, g.max - 1) else 0;
    if g.max == 1 {
      assert Alone(s, t, 1) == Served(s, t, n, Done(1 + n));
    } else if s.sh.count <= 0 {
      assert Alone(s, t, 2) == Served(s, t, n, Done(1 + n));
    } else {
      assert Alone(s, t, 3) == Served(s, t, n, Done(1 + n));
    }
  }

  /** A waiter has its first permit after one step if the counter, or once blocked the kernel, has one;
      else it waits. */
  lemma LoneWaitTakesOne(s: State, t: nat)
    requires t < |s.pcs| && (s.pcs[t].Sub? || s.pcs[t].Blocked?)
    ensures var g, s' := s.pcs[t].g, Alone(s, t, 1);
            if s.pcs[t].Sub? then
              if s.sh.count > 0 then s' == Served(s, t, 1, GotOne(g))
              else s'.pcs[t] == Blocked(g) && s'.sh == s.sh.(count := s.sh.count - 1)
            else if s.sh.tokens > 0 then
              s'.pcs[t] == GotOne(g) && s'.sh == s.sh.(tokens := s.sh.tokens - 1, acquired := s.sh.acquired + 1)
            else s' == s
  {
    AloneTwice(s, t);
    assert s.pcs[t := s.pcs[t]] == s.pcs;
  }

  /** signal raises the counter and posts one token for each waiter it can serve. */
  lemma LoneSignalPosts(s: State, t: nat, n: nat)
    requires t < |s.pcs| && s.pcs[t] == Raise(n)
    ensures var posts := if s.sh.count < 0 then Least(-s.sh.count, n) else 0;
            && Alone(s, t, 1 + posts).pcs[t] == Idle
            && Alone(s, t, 1 + posts).sh == s.sh.(count := s.sh.count + n, signalled := s.sh.signalled + n, tokens := s.sh.tokens + posts)
  {
    var posts := if s.sh.count < 0 then Least(-s.sh.count, n) else 0;
    if posts > 0 {
      LonePosts(Step(s, t, Go), t, posts);
    }
  }

  lemma {:induction false} LonePosts(s: State, t: nat, n: nat)
    requires t < |s.pcs| && s.pcs[t] == Post(n) && n > 0
    ensures Alone(s, t, n).pcs[t] == Idle && Alone(s, t, n).sh == s.sh.(tokens := s.sh.tokens + n)
    decreases n
  {
    if n > 1 {
      LonePosts(Step(s, t, Go), t, n - 1);
    }
  }
}
