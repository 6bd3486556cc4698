/** BlockingConcurrentQueue (archive/other_src/blockingconcurrentqueue.h:123-447): the inner
    queue is a bag that hands out some of what it holds, possibly nothing; the semaphore is
    the one of module Semaphore, step by step. */
module BlockingQueue {
  import opened Tally
  import S = Semaphore

  type Item = int

  datatype PC =
    | Idle
    | Insert(items: multiset<Item>)   // inner.enqueue, inner.enqueue_bulk
    | Signalling(p: S.PC)             // sema->signal
    | Acquiring(p: S.PC)              // sema->wait, tryWait, waitMany, tryWaitMany
    | Drain(left: nat)                // the loop over inner.try_dequeue, holding left permits

  // inner is the content of the queue; enqueued and delivered are running totals.
  datatype State = State(inner: multiset<Item>, sh: S.Shared, pcs: seq<PC>,
                         enqueued: multiset<Item>, delivered: multiset<Item>)
  {
    function At(t: nat, p: PC): State
      requires t < |pcs|
    {
      this.(pcs := pcs[t := p])
    }
  }

  // out is what inner.try_dequeue returns, if the thread calls it; ok whether an enqueue succeeds.
  datatype Choice =
    | Enqueue(items: multiset<Item>)
    | Dequeue(max: nat, blocking: bool)
    | Sem(c: S.Choice)
    | Inner(ok: bool, out: multiset<Item>)

  function Resume(acquiring: bool, p: S.PC): PC {
    if p.Idle? then Idle else if acquiring then Acquiring(p) else Signalling(p)
  }

  function Step(s: State, t: nat, c: Choice): State
    requires t < |s.pcs|
  {
    match s.pcs[t]
    case Idle =>
      (match c
       case Enqueue(items) => s.At(t, Insert(items))
       case Dequeue(max, blocking) => s.At(t, Acquiring(S.TryLoad(S.Goal(max, blocking, 0))))
       case _ => s)
    case Insert(items) =>
      if c.Inner? && c.ok then
        s.(inner := s.inner + items, enqueued := s.enqueued + items).At(t, Signalling(S.Raise(|items|)))
      else s.At(t, Idle)
    case Signalling(p) =>
      var (sh, p') := S.Advance(s.sh, p, if c.Sem? then c.c else S.Go);
      s.(sh := sh).At(t, Resume(false, p'))
    case Acquiring(p) =>
      if p.Done? then s.At(t, if p.got == 0 then Idle else Drain(p.got))
      else
        var (sh, p') := S.Advance(s.sh, p, if c.Sem? then c.c else S.Go);
        s.(sh := sh).At(t, Resume(true, p'))
    case Drain(left) =>
      if c.Inner? && c.out <= s.inner && |c.out| <= left then
        s.(inner := s.inner - c.out, delivered := s.delivered + c.out)
         .At(t, if |c.out| == left then Idle else Drain(left - |c.out|))
      else s
  }

  // ---- The semaphore inside ----

  function SemPC(p: PC): S.PC {
    match p
    case Signalling(q) => q
    case Acquiring(q) => q
    case _ => S.Idle
  }

  function View(s: State): S.State {
    S.State(s.sh, seq(|s.pcs|, i requires 0 <= i < |s.pcs| => SemPC(s.pcs[i])))
  }

  /** Every step of the queue is a step of the semaphore, or does not concern it. */
  lemma Refines(s: State, t: nat, c: Choice)
    requires t < |s.pcs|
    ensures View(Step(s, t, c)) == View(s) || exists sc :: View(Step(s, t, c)) == S.Step(View(s), t, sc)
  {
    var s', p := Step(s, t, c), s.pcs[t];
    var sc := match p
              case Idle => if c.Dequeue? then S.Start(if c.blocking then S.Wait(c.max) else S.TryWait(c.max), 0) else S.Go
              case Insert(items) => S.Start(S.Signal(|items|), 0)
              case _ => if c.Sem? then c.c else S.Go;
    if p.Drain? || (p.Idle? && !c.Dequeue?) || (p.Insert? && !(c.Inner? && c.ok)) {
      assert View(s').pcs == View(s).pcs;
    } else {
      assert View(s').pcs == S.Step(View(s), t, sc).pcs;
    }
  }

  // ---- Items and permits ----

  /** Items in the queue whose signal has not reached the counter. */
  function Unsignalled(): PC -> int {
    (p: PC) => if p.Signalling? && p.p.Raise? then p.p.n else 0
  }

  /** Permits a thread has and has not yet used to dequeue. */
  function Unused(): PC -> int {
    (p: PC) =>
      if p.Drain? then p.left
      else if p.Acquiring? then Held(p.p)
      else 0
  }

  function Held(p: S.PC): int {
    match p
    case TryLoad(g) => g.held
    case TryCas(g, _) => g.held
    case GotOne(_) => 1
    case Done(got) => got
    case _ => 0
  }

  predicate PCInv(p: PC) {
    match p
    case Signalling(q) => q.Raise? || q.Post?
    case Acquiring(q) =>
      && !q.Raise? && !q.Post? && !q.Idle?
      && ((q.TryLoad? || q.TryCas?) && q.g.blocking ==> q.g.held == 0)
    case _ => true
  }

  predicate Inv(s: State) {
    && S.Inv(View(s), 0)
    && |s.inner| == s.sh.signalled - s.sh.acquired + Total(Unsignalled(), s.pcs) + Total(Unused(), s.pcs)
    && s.enqueued == s.inner + s.delivered
    && (forall t :: 0 <= t < |s.pcs| ==> PCInv(s.pcs[t]))
  }

  predicate Init(s: State) {
    && s.inner == s.enqueued == s.delivered == multiset{}
    && s.sh == S.Shared(0, 0, 0, 0)
    && (forall t :: 0 <= t < |s.pcs| ==> s.pcs[t] == Idle)
  }

  lemma InitInv(s: State)
    requires Init(s)
    ensures Inv(s)
  {
    S.InitInv(View(s), 0);
    TotalZero(Unsignalled(), s.pcs);
    TotalZero(Unused(), s.pcs);
  }

  /** A semaphore operation moves permits between the books and a thread's hands. */
  lemma AdvanceHolds(sh: S.Shared, p: S.PC, c: S.Choice, acquiring: bool)
    requires !p.Idle? && PCInv(Resume(acquiring, p)) && !(acquiring && p.Done?)
    ensures var (sh', p') := S.Advance(sh, p, c);
            var q, q' := Resume(acquiring, p), Resume(acquiring, p');
            && PCInv(q')
            && sh'.signalled - sh'.acquired + Unsignalled()(q') + Unused()(q')
               == sh.signalled - sh.acquired + Unsignalled()(q) + Unused()(q)
  {
  }

  lemma StepSemaphore(s: State, t: nat, c: Choice)
    requires S.Inv(View(s), 0) && t < |s.pcs|
    ensures S.Inv(View(Step(s, t, c)), 0)
  {
    Refines(s, t, c);
    if View(Step(s, t, c)) != View(s) {
      var sc :| View(Step(s, t, c)) == S.Step(View(s), t, sc);
      S.StepInv(View(s), t, sc, 0);
    }
  }

  /** What a step changes in the books of items and permits, for the thread that moves. */
  lemma StepBalances(s: State, t: nat, c: Choice)
    requires t < |s.pcs| && PCInv(s.pcs[t]) && s.enqueued == s.inner + s.delivered
    ensures var s' := Step(s, t, c);
            && s'.pcs == s.pcs[t := s'.pcs[t]] && PCInv(s'.pcs[t])
            && s'.enqueued == s'.inner + s'.delivered
            && |s'.inner| - (s'.sh.signalled - s'.sh.acquired) - Unsignalled()(s'.pcs[t]) - Unused()(s'.pcs[t])
               == |s.inner| - (s.sh.signalled - s.sh.acquired) - Unsignalled()(s.pcs[t]) - Unused()(s.pcs[t])
  {
    var p := s.pcs[t];
    if p.Signalling? || (p.Acquiring? && !p.p.Done?) {
      AdvanceHolds(s.sh, p.p, if c.Sem? then c.c else S.Go, p.Acquiring?);
    }
  }

  lemma StepInv(s: State, t: nat, c: Choice)
    requires Inv(s) && t < |s.pcs|
    ensures Inv(Step(s, t, c))
  {
    assert PCInv(s.pcs[t]);
    StepBalances(s, t, c);
    StepSemaphore(s, t, c);
    TotalUpdate(Unsignalled(), s.pcs, t, Step(s, t, c).pcs[t]);
    TotalUpdate(Unused(), s.pcs, t, Step(s, t, c).pcs[t]);
  }

  predicate Execution(states: seq<State>, moves: seq<(nat, Choice)>) {
    && |states| == |moves| + 1
    && Init(states[0])
    && (forall k :: 0 <= k < |moves| ==> Follows(states[k], moves[k], states[k + 1]))
  }

  predicate Follows(s: State, move: (nat, Choice), s': State) {
    move.0 < |s.pcs| && s' == Step(s, move.0, move.1)
  }

  /** In every interleaving the items in the queue are exactly the permits available, plus
      the items not yet signalled, plus the permits acquired and not yet used; and nothing
      is lost or delivered twice. */
  lemma {:induction false} Always(states: seq<State>, moves: seq<(nat, Choice)>, k: nat)
    requires Execution(states, moves) && k < |states|
    ensures Inv(states[k])
  {
    if k == 0 {
      InitInv(states[0]);
    } else {
      Always(states, moves, k - 1);
      assert Follows(states[k - 1], moves[k - 1], states[k]);
      StepInv(states[k - 1], moves[k - 1].0, moves[k - 1].1);
    }
  }

  /** A consumer in the dequeue loop never faces an empty queue: the queue holds at least
      as many items as all the consumers in the loop together still have to take. */
  lemma NeverSpinsOnEmpty(states: seq<State>, moves: seq<(nat, Choice)>, k: nat, t: nat)
    requires Execution(states, moves) && k < |states| && t < |states[k].pcs|
    requires states[k].pcs[t].Drain?
    ensures |states[k].inner| >= Total(Unused(), states[k].pcs) >= states[k].pcs[t].left
  {
    Always(states, moves, k);
    var s := states[k];
    forall v | 0 <= v < |s.pcs|
      ensures Unused()(s.pcs[v]) >= 0 && Unsignalled()(s.pcs[v]) >= 0
    {
    }
    TotalCovers(Unused(), s.pcs, t);
    TotalNonNegative(Unsignalled(), s.pcs);
    TotalNonNegative(S.Unposted(), View(s).pcs);
  }

  /** When every thread is idle, the counter is the number of items in the queue. */
  lemma QuiescentCount(states: seq<State>, moves: seq<(nat, Choice)>, k: nat)
    requires Execution(states, moves) && k < |states|
    requires forall t :: 0 <= t < |states[k].pcs| ==> states[k].pcs[t] == Idle
    ensures states[k].sh.count == |states[k].inner| && states[k].sh.tokens == 0
  {
    Always(states, moves, k);
    var s := states[k];
    TotalZero(Unsignalled(), s.pcs);
    TotalZero(Unused(), s.pcs);
    TotalZero(S.Waits(), View(s).pcs);
    TotalZero(S.Unposted(), View(s).pcs);
  }

  // ---- What the operations answer ----

  /** Undisturbed, a dequeue takes as many items as there are permits, up to what was asked for. */
  lemma LoneDequeueTakes(states: seq<State>, moves: seq<(nat, Choice)>, k: nat, t: nat, max: nat, blocking: bool, out: multiset<Item>)
    requires Execution(states, moves) && k < |states| && t < |states[k].pcs| && states[k].pcs[t] == Idle
    requires states[k].sh.count > 0 && max > 0
    requires out <= states[k].inner && |out| == S.Least(states[k].sh.count, max)
    ensures var s := states[k];
            var s1 := Step(Step(Step(s, t, Dequeue(max, blocking)), t, Sem(S.Go)), t, Sem(S.Go));
            var s' := Step(Step(s1, t, Sem(S.Go)), t, Inner(true, out));
            && s'.pcs[t] == Idle && s'.delivered == s.delivered + out && s'.inner == s.inner - out
            && s'.sh == s.sh.(count := s.sh.count - |out|, acquired := s.sh.acquired + |out|)
  {
  }

  /** And there are that many, so that such an out exists. */
  lemma EnoughThere(states: seq<State>, moves: seq<(nat, Choice)>, k: nat)
    requires Execution(states, moves) && k < |states| && states[k].sh.count > 0
    ensures states[k].sh.count <= |states[k].inner|
  {
    Always(states, moves, k);
    var s := states[k];
    forall v | 0 <= v < |s.pcs|
      ensures Unused()(s.pcs[v]) >= 0 && Unsignalled()(s.pcs[v]) >= 0
    {
    }
    TotalNonNegative(Unused(), s.pcs);
    TotalNonNegative(Unsignalled(), s.pcs);
    TotalNonNegative(S.Waits(), View(s).pcs);
  }

  /** A try_dequeue that finds no permit comes back with nothing and has changed nothing. */
  lemma LoneDequeueRefused(s: State, t: nat, max: nat)
    requires t < |s.pcs| && s.pcs[t] == Idle && s.sh.count <= 0
    ensures Step(Step(Step(s, t, Dequeue(max, false)), t, Sem(S.Go)), t, Sem(S.Go)) == s
  {
    var s' := Step(Step(Step(s, t, Dequeue(max, false)), t, Sem(S.Go)), t, Sem(S.Go));
    assert s'.pcs == s.pcs;
  }

  /** An enqueue puts its items in and raises the counter by as many. */
  lemma LoneEnqueuePuts(s: State, t: nat, items: multiset<Item>)
    requires t < |s.pcs| && s.pcs[t] == Idle && s.sh.count >= 0
    ensures var s' := Step(Step(Step(s, t, Enqueue(items)), t, Inner(true, multiset{})), t, Sem(S.Go));
            && s'.pcs[t] == Idle && s'.inner == s.inner + items && s'.enqueued == s.enqueued + items
            && s'.sh == s.sh.(count := s.sh.count + |items|, signalled := s.sh.signalled + |items|)
  {
  }
}
