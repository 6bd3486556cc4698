/** The CAS and reference-count free list (archive/other_src/concurrentqueue.h:1442-1555)
    as a transition system: every atomic load, store, compare-exchange and
    fetch-add is one step, and any number of threads interleave freely under
    sequential consistency. */
module FreeList {
  import opened Bytes
  import opened Tally

  // SHOULD_BE_ON_FREELIST; REFS_MASK is the bits below it.
  const FLAG: int := 0x8000_0000
  const WORD: int := 0x1_0000_0000

  datatype Link = Null | Ptr(node: nat)

  // What a thread does when it leaves add_knowing_refcount_is_zero.
  datatype After = Leave | Retry(head: Link)

  // The next atomic operation of a thread.
  datatype PC =
    | Idle
    | AddFlag(n: nat)                          // add: fetch_add(SHOULD_BE_ON_FREELIST)
    | PutLoad(n: nat, after: After)            // add_knowing_refcount_is_zero: load the head
    | PutNext(n: nat, h: Link, after: After)   //   store freeListNext
    | PutRefs(n: nat, h: Link, after: After)   //   store a count of one
    | PutSwing(n: nat, h: Link, after: After)  //   CAS the head
    | PutBack(n: nat, h: Link, after: After)   //   CAS failed: fetch_add(SHOULD_BE_ON_FREELIST - 1)
    | GetReload                                // try_get: load the head
    | GetLoop(h: Link)                         //   null check, load of the count
    | GetRef(n: nat, seen: int)                //   CAS the count up by one
    | GetNext(n: nat)                          //   load freeListNext
    | GetSwing(n: nat, nx: Link)               //   CAS the head to the successor
    | GetTake(n: nat)                          //   taken: fetch_sub(2) and return
    | GetDrop(n: nat, h: Link)                 //   CAS failed: fetch_sub(1)

  // What an idle thread does next.
  datatype Call = Add(n: nat) | TryGet | Pass

  // head, next and refs are the shared memory. owned (the nodes in the hands of
  // clients) and chain (the linked nodes in order) are written alongside and
  // decide nothing, except that a client adds only what it owns.
  datatype State = State(head: Link, next: seq<Link>, refs: seq<int>, pcs: seq<PC>,
                         owned: set<nat>, chain: seq<nat>)
  {
    /** Every pointer points at one of the nodes. */
    predicate Shaped() {
      && |next| == |refs|
      && InRange(head, |refs|)
      && (forall n :: 0 <= n < |next| ==> InRange(next[n], |refs|))
      && (forall t :: 0 <= t < |pcs| ==> PCInRange(pcs[t], |refs|))
    }

    function At(t: nat, p: PC): (s': State)
      requires t < |pcs|
      ensures Shaped() && PCInRange(p, |refs|) ==> s'.Shaped()
    {
      this.(pcs := pcs[t := p])
    }

    function WithRefs(n: nat, word: int): (s': State)
      requires n < |refs|
      ensures Shaped() ==> s'.Shaped()
    {
      this.(refs := refs[n := word % WORD])
    }
  }

  predicate InRange(l: Link, size: nat) {
    l.Ptr? ==> l.node < size
  }

  predicate AfterInRange(a: After, size: nat) {
    a.Retry? ==> InRange(a.head, size)
  }

  predicate PCInRange(p: PC, size: nat) {
    match p
    case Idle => true
    case GetReload => true
    case AddFlag(n) => n < size
    case PutLoad(n, a) => n < size && AfterInRange(a, size)
    case PutNext(n, h, a) => n < size && InRange(h, size) && AfterInRange(a, size)
    case PutRefs(n, h, a) => n < size && InRange(h, size) && AfterInRange(a, size)
    case PutSwing(n, h, a) => n < size && InRange(h, size) && AfterInRange(a, size)
    case PutBack(n, h, a) => n < size && InRange(h, size) && AfterInRange(a, size)
    case GetLoop(h) => InRange(h, size)
    case GetRef(n, _) => n < size
    case GetNext(n) => n < size
    case GetSwing(n, nx) => n < size && InRange(nx, size)
    case GetTake(n) => n < size
    case GetDrop(n, h) => n < size && InRange(h, size)
  }

  function Resume(after: After): PC {
    match after
    case Leave => Idle
    case Retry(h) => GetLoop(h)
  }

  /** An idle thread starts an operation. Clients add only nodes they own. */
  function CallStep(s: State, t: nat, call: Call): (s': State)
    requires s.Shaped() && t < |s.pcs| && s.pcs[t].Idle?
    ensures s'.Shaped()
  {
    match call
    case Add(n) => if n in s.owned && n < |s.refs| then s.(owned := s.owned - {n}).At(t, AddFlag(n)) else s
    case TryGet => s.At(t, GetReload)
    case Pass => s
  }

  predicate InPut(p: PC) {
    p.AddFlag? || p.PutLoad? || p.PutNext? || p.PutRefs? || p.PutSwing? || p.PutBack?
  }

  /** add and add_knowing_refcount_is_zero. */
  function PutStep(s: State, t: nat): (s': State)
    requires s.Shaped() && t < |s.pcs| && InPut(s.pcs[t])
    ensures s'.Shaped()
  {
    match s.pcs[t]
    case AddFlag(n) =>
      s.WithRefs(n, s.refs[n] + FLAG).At(t, if s.refs[n] == 0 then PutLoad(n, Leave) else Idle)
    case PutLoad(n, after) =>
      s.At(t, PutNext(n, s.head, after))
    case PutNext(n, h, after) =>
      s.(next := s.next[n := h]).At(t, PutRefs(n, h, after))
    case PutRefs(n, h, after) =>
      s.WithRefs(n, 1).At(t, PutSwing(n, h, after))
    case PutSwing(n, h, after) =>
      if s.head == h then s.(head := Ptr(n), chain := [n] + s.chain).At(t, Resume(after))
      else s.At(t, PutBack(n, s.head, after))
    case PutBack(n, h, after) =>
      s.WithRefs(n, s.refs[n] + FLAG - 1).At(t, if s.refs[n] == 1 then PutNext(n, h, after) else Resume(after))
  }

  predicate InGet(p: PC) {
    p.GetReload? || p.GetLoop? || p.GetRef? || p.GetNext? || p.GetSwing? || p.GetTake? || p.GetDrop?
  }

  /** try_get. */
  function GetStep(s: State, t: nat): (s': State)
    requires s.Shaped() && t < |s.pcs| && InGet(s.pcs[t])
    ensures s'.Shaped()
  {
    match s.pcs[t]
    case GetReload =>
      s.At(t, GetLoop(s.head))
    case GetLoop(h) =>
      (match h
       case Null => s.At(t, Idle)
       case Ptr(n) => s.At(t, if s.refs[n] % FLAG == 0 then GetReload else GetRef(n, s.refs[n])))
    case GetRef(n, seen) =>
      if s.refs[n] == seen then s.WithRefs(n, seen + 1).At(t, GetNext(n)) else s.At(t, GetReload)
    case GetNext(n) =>
      s.At(t, GetSwing(n, s.next[n]))
    case GetSwing(n, nx) =>
      if s.head == Ptr(n) then
        s.(head := nx, chain := if s.chain == [] then [] else s.chain[1..]).At(t, GetTake(n))
      else s.At(t, GetDrop(n, s.head))
    case GetTake(n) =>
      s.WithRefs(n, s.refs[n] - 2).(owned := s.owned + {n}).At(t, Idle)
    case GetDrop(n, h) =>
      s.WithRefs(n, s.refs[n] - 1).At(t, if s.refs[n] == FLAG + 1 then PutLoad(n, Retry(h)) else GetLoop(h))
  }

  /** One atomic operation of thread t. */
  function Step(s: State, t: nat, call: Call): (s': State)
    requires s.Shaped() && t < |s.pcs|
    ensures s'.Shaped() && |s'.pcs| == |s.pcs| && |s'.refs| == |s.refs|
  {
    if InPut(s.pcs[t]) then PutStep(s, t)
    else if InGet(s.pcs[t]) then GetStep(s, t)
    else CallStep(s, t, call)
  }

  // ---- What threads contribute to a node ----

  datatype Role = Holder   // holds a reference taken by try_get
                | Slot     // stands for the list's own reference: being linked, or just unlinked
                | Quiet    // about to rewrite freeListNext, with the count at zero
                | Adder    // inside add, before the flag is set

  predicate Plays(r: Role, p: PC, n: nat) {
    match r
    case Holder => p == GetNext(n) || (p.GetSwing? && p.n == n) || p == GetTake(n) || (p.GetDrop? && p.n == n)
    case Slot => ((p.PutSwing? || p.PutBack?) && p.n == n) || p == GetTake(n)
    case Quiet => (p.PutLoad? || p.PutNext? || p.PutRefs?) && p.n == n
    case Adder => p == AddFlag(n)
  }

  function Share(r: Role, n: nat): PC -> int {
    (p: PC) => if Plays(r, p, n) then 1 else 0
  }

  function Number(s: State, r: Role, n: nat): int {
    Total(Share(r, n), s.pcs)
  }

  function One(b: bool): int {
    if b then 1 else 0
  }

  /** How many threads have the node to themselves. */
  function Claims(s: State, n: nat): int {
    Number(s, Slot, n) + Number(s, Quiet, n) + Number(s, Adder, n)
  }

  /** Neither owned, linked nor claimed: flagged and left to whoever drops the last reference. */
  predicate Limbo(s: State, n: nat) {
    n !in s.owned && n !in s.chain && Claims(s, n) == 0
  }

  /** chain is what following the pointers from the head meets, without repetition. */
  predicate Linked(s: State)
    requires s.Shaped()
  {
    IsChain(s.head, s.chain, s.next)
  }

  predicate IsChain(head: Link, chain: seq<nat>, next: seq<Link>) {
    && (forall i :: 0 <= i < |chain| ==> chain[i] < |next|)
    && (forall i, j :: 0 <= i < j < |chain| ==> chain[i] != chain[j])
    && head == (if chain == [] then Null else Ptr(chain[0]))
    && (forall i :: 0 <= i < |chain| ==> next[chain[i]] == Successor(chain, i))
  }

  function Successor(chain: seq<nat>, i: nat): Link {
    if i + 1 < |chain| then Ptr(chain[i + 1]) else Null
  }

  /** The reference word of a node is exactly its references plus the flag where it belongs. */
  predicate NodeInv(s: State, n: nat)
    requires n < |s.refs|
  {
    && One(n in s.owned) + One(n in s.chain) + Claims(s, n) <= 1
    && s.refs[n] == Number(s, Holder, n) + Number(s, Slot, n) + One(n in s.chain)
                    + FLAG * (Number(s, Quiet, n) + One(Limbo(s, n)))
    && (Limbo(s, n) || Number(s, Quiet, n) == 0 || Number(s, Holder, n) == 0)
    && (Limbo(s, n) ==> Number(s, Holder, n) >= 1)
  }

  /** What a thread has read and may rely on. */
  predicate ThreadInv(s: State, p: PC)
    requires s.Shaped() && PCInRange(p, |s.refs|)
  {
    match p
    case GetSwing(n, nx) => s.next[n] == nx
    case PutRefs(n, h, _) => s.next[n] == h
    case PutSwing(n, h, _) => s.next[n] == h
    case GetRef(n, seen) => seen % FLAG != 0
    case _ => true
  }

  predicate Inv(s: State) {
    && s.Shaped()
    && |s.pcs| + 1 < FLAG
    && Linked(s)
    && (forall n :: n in s.owned ==> n < |s.refs|)
    && (forall n :: 0 <= n < |s.refs| ==> NodeInv(s, n))
    && (forall t :: 0 <= t < |s.pcs| ==> ThreadInv(s, s.pcs[t]))
  }

  /** Every node is in the hands of clients, unreferenced, and the list is empty. */
  predicate Init(s: State) {
    && s.head == Null && s.chain == []
    && |s.next| == |s.refs| && |s.pcs| + 1 < FLAG
    && (forall n :: 0 <= n < |s.refs| ==> s.next[n] == Null && s.refs[n] == 0 && n in s.owned)
    && (forall n :: n in s.owned ==> n < |s.refs|)
    && (forall t :: 0 <= t < |s.pcs| ==> s.pcs[t] == Idle)
  }

  lemma InitInv(s: State)
    requires Init(s)
    ensures Inv(s)
  {
    forall n | 0 <= n < |s.refs|
      ensures NodeInv(s, n)
    {
      TotalZero(Share(Holder, n), s.pcs);
      TotalZero(Share(Slot, n), s.pcs);
      TotalZero(Share(Quiet, n), s.pcs);
      TotalZero(Share(Adder, n), s.pcs);
    }
  }

  /** Moving thread t from one program counter to another changes a number by its own share. */
  lemma Moved(s: State, s': State, t: nat, n: nat, r: Role)
    requires t < |s.pcs| == |s'.pcs| && s'.pcs == s.pcs[t := s'.pcs[t]]
    ensures Number(s', r, n) == Number(s, r, n) - One(Plays(r, s.pcs[t], n)) + One(Plays(r, s'.pcs[t], n))
    ensures 0 <= One(Plays(r, s.pcs[t], n)) <= Number(s, r, n) <= |s.pcs|
  {
    TotalUpdate(Share(r, n), s.pcs, t, s'.pcs[t]);
    TotalCovers(Share(r, n), s.pcs, t);
    TotalBounded(Share(r, n), s.pcs, 1);
  }

  lemma MovedAll(s: State, s': State, t: nat, n: nat)
    requires t < |s.pcs| == |s'.pcs| && s'.pcs == s.pcs[t := s'.pcs[t]]
    ensures Number(s', Holder, n) == Number(s, Holder, n) - One(Plays(Holder, s.pcs[t], n)) + One(Plays(Holder, s'.pcs[t], n))
    ensures One(Plays(Holder, s.pcs[t], n)) <= Number(s, Holder, n) <= |s.pcs|
    ensures Number(s', Slot, n) == Number(s, Slot, n) - One(Plays(Slot, s.pcs[t], n)) + One(Plays(Slot, s'.pcs[t], n))
    ensures One(Plays(Slot, s.pcs[t], n)) <= Number(s, Slot, n) <= |s.pcs|
    ensures Number(s', Quiet, n) == Number(s, Quiet, n) - One(Plays(Quiet, s.pcs[t], n)) + One(Plays(Quiet, s'.pcs[t], n))
    ensures One(Plays(Quiet, s.pcs[t], n)) <= Number(s, Quiet, n) <= |s.pcs|
    ensures Number(s', Adder, n) == Number(s, Adder, n) - One(Plays(Adder, s.pcs[t], n)) + One(Plays(Adder, s'.pcs[t], n))
    ensures One(Plays(Adder, s.pcs[t], n)) <= Number(s, Adder, n) <= |s.pcs|
  {
    Moved(s, s', t, n, Holder);
    Moved(s, s', t, n, Slot);
    Moved(s, s', t, n, Quiet);
    Moved(s, s', t, n, Adder);
  }

  lemma PutNode(s: State, t: nat, n: nat)
    requires s.Shaped() && |s.pcs| + 1 < FLAG && t < |s.pcs| && n < |s.refs|
    requires NodeInv(s, n) && InPut(s.pcs[t])
    ensures NodeInv(PutStep(s, t), n)
  {
    hide Number;
    var s' := PutStep(s, t);
    MovedAll(s, s', t, n);
  }

  lemma GetNode(s: State, t: nat, n: nat)
    requires s.Shaped() && |s.pcs| + 1 < FLAG && t < |s.pcs| && n < |s.refs|
    requires NodeInv(s, n) && (s.pcs[t].GetReload? || s.pcs[t].GetLoop? || s.pcs[t].GetNext? || s.pcs[t].GetTake?)
    ensures NodeInv(GetStep(s, t), n)
  {
    hide Number;
    var s' := GetStep(s, t);
    MovedAll(s, s', t, n);
  }

  lemma GetNodeSwing(s: State, t: nat, n: nat)
    requires s.Shaped() && |s.pcs| + 1 < FLAG && t < |s.pcs| && n < |s.refs|
    requires NodeInv(s, n) && s.pcs[t].GetSwing? && Linked(s)
    ensures NodeInv(GetStep(s, t), n)
  {
    hide Number;
    var s' := GetStep(s, t);
    MovedAll(s, s', t, n);
    if s.head == Ptr(s.pcs[t].n) {
      assert s.chain == [s.pcs[t].n] + s'.chain;
      assert n in s'.chain <==> n in s.chain && n != s.pcs[t].n;
    }
    hide Linked, State.Shaped;
  }

  lemma GetNodeCount(s: State, t: nat, n: nat)
    requires s.Shaped() && |s.pcs| + 1 < FLAG && t < |s.pcs| && n < |s.refs|
    requires NodeInv(s, n) && (s.pcs[t].GetRef? || s.pcs[t].GetDrop?) && ThreadInv(s, s.pcs[t])
    ensures NodeInv(GetStep(s, t), n)
  {
    hide Number;
    var s' := GetStep(s, t);
    MovedAll(s, s', t, n);
  }

  lemma CallNode(s: State, t: nat, call: Call, n: nat)
    requires s.Shaped() && |s.pcs| + 1 < FLAG && t < |s.pcs| && n < |s.refs|
    requires NodeInv(s, n) && s.pcs[t].Idle?
    ensures NodeInv(CallStep(s, t, call), n)
  {
    var s' := CallStep(s, t, call);
    MovedAll(s, s', t, n);
  }

  /** A node being written or just taken is not on the list. */
  lemma NotLinked(s: State, t: nat, n: nat)
    requires t < |s.pcs| && n < |s.refs| && NodeInv(s, n)
    requires Plays(Slot, s.pcs[t], n) || Plays(Quiet, s.pcs[t], n)
    ensures n !in s.chain && n !in s.owned
  {
    TotalCovers(Share(Quiet, n), s.pcs, t);
    TotalCovers(Share(Slot, n), s.pcs, t);
    TotalNonNegative(Share(Adder, n), s.pcs);
  }

  lemma ChainPush(head: Link, chain: seq<nat>, next: seq<Link>, n: nat)
    requires IsChain(head, chain, next) && n < |next| && n !in chain && next[n] == head
    ensures IsChain(Ptr(n), [n] + chain, next)
  {
    var chain' := [n] + chain;
    assert forall i :: 0 < i < |chain'| ==> chain'[i] == chain[i - 1];
    assert forall i :: 0 < i < |chain'| ==> Successor(chain', i) == Successor(chain, i - 1);
  }

  lemma ChainPop(chain: seq<nat>, next: seq<Link>)
    requires chain != [] && IsChain(Ptr(chain[0]), chain, next)
    ensures IsChain(next[chain[0]], chain[1..], next)
  {
    var chain' := chain[1..];
    assert forall i :: 0 <= i < |chain'| ==> Successor(chain', i) == Successor(chain, i + 1);
  }

  lemma PutLinked(s: State, t: nat)
    requires Inv(s) && t < |s.pcs| && InPut(s.pcs[t])
    ensures Linked(PutStep(s, t))
  {
    var p := s.pcs[t];
    assert ThreadInv(s, p);
    if p.PutNext? || p.PutSwing? {
      assert NodeInv(s, p.n);
      NotLinked(s, t, p.n);
    }
    if p.PutSwing? && s.head == p.h {
      ChainPush(s.head, s.chain, s.next, p.n);
    }
  }

  lemma GetLinked(s: State, t: nat)
    requires s.Shaped() && Linked(s) && t < |s.pcs| && InGet(s.pcs[t]) && ThreadInv(s, s.pcs[t])
    ensures Linked(GetStep(s, t))
  {
    if s.pcs[t].GetSwing? && s.head == Ptr(s.pcs[t].n) {
      ChainPop(s.chain, s.next);
    }
  }

  /** A reference taken by try_get freezes freeListNext; so does being the one who writes it. */
  lemma StepOthers(s: State, t: nat, call: Call, u: nat)
    requires Inv(s) && t < |s.pcs| && u < |s.pcs| && u != t
    ensures ThreadInv(Step(s, t, call), Step(s, t, call).pcs[u])
  {
    hide NodeInv, Linked;
    var p, q := s.pcs[t], s.pcs[u];
    assert ThreadInv(s, q);
    if p.PutNext? && (q.GetSwing? || q.PutRefs? || q.PutSwing?) {
      OnlyWriter(s, t, u);
    }
  }

  lemma StepSelf(s: State, t: nat, call: Call)
    requires s.Shaped() && t < |s.pcs| && ThreadInv(s, s.pcs[t])
    ensures ThreadInv(Step(s, t, call), Step(s, t, call).pcs[t])
  {
  }

  /** While one thread rewrites freeListNext of a node, no other relies on it. */
  lemma OnlyWriter(s: State, t: nat, u: nat)
    requires Inv(s) && t < |s.pcs| && u < |s.pcs| && u != t
    requires s.pcs[t].PutNext? && (s.pcs[u].GetSwing? || s.pcs[u].PutRefs? || s.pcs[u].PutSwing?)
    ensures s.pcs[t].n != s.pcs[u].n
  {
    var n := s.pcs[t].n;
    assert NodeInv(s, n);
    TotalCovers(Share(Quiet, n), s.pcs, t);
    TotalCovers(Share(Holder, n), s.pcs, u);
    TotalCovers(Share(Slot, n), s.pcs, u);
    TotalNonNegative(Share(Adder, n), s.pcs);
    TotalCoversPair(Share(Quiet, n), s.pcs, if t < u then t else u, if t < u then u else t);
  }

  /** No step of any thread breaks the invariant. */
  lemma StepInv(s: State, t: nat, call: Call)
    requires Inv(s) && t < |s.pcs|
    ensures Inv(Step(s, t, call))
  {
    var p, s' := s.pcs[t], Step(s, t, call);
    forall n | 0 <= n < |s.refs|
      ensures NodeInv(s', n)
    {
      assert NodeInv(s, n) && ThreadInv(s, p);
      if InPut(p) {
        PutNode(s, t, n);
      } else if p.GetRef? || p.GetDrop? {
        GetNodeCount(s, t, n);
      } else if p.GetSwing? {
        GetNodeSwing(s, t, n);
      } else if InGet(p) {
        GetNode(s, t, n);
      } else {
        CallNode(s, t, call, n);
      }
    }
    assert ThreadInv(s, p);
    if InPut(p) {
      PutLinked(s, t);
    } else if InGet(p) {
      GetLinked(s, t);
    }
    forall u | 0 <= u < |s.pcs|
      ensures ThreadInv(s', s'.pcs[u])
    {
      if u == t {
        StepSelf(s, t, call);
      } else {
        StepOthers(s, t, call, u);
      }
    }
  }

  // ---- Whole runs ----

  /** A run: from an initial state, at each moment some thread takes its next step.
      moves[k] is the thread, and what it starts if it is idle. */
  predicate Execution(states: seq<State>, moves: seq<(nat, Call)>) {
    && |states| == |moves| + 1
    && Init(states[0])
    && (forall k :: 0 <= k < |moves| ==> Follows(states[k], moves[k], states[k + 1]))
  }

  predicate Follows(s: State, move: (nat, Call), s': State) {
    s.Shaped() && move.0 < |s.pcs| && s' == Step(s, move.0, move.1)
  }

  /** Every interleaving of any number of threads keeps the invariant. */
  lemma {:induction false} Always(states: seq<State>, moves: seq<(nat, Call)>, k: nat)
    requires Execution(states, moves) && k < |states|
    ensures Inv(states[k])
  {
    if k == 0 {
      InitInv(states[0]);
    } else {
      Always(states, moves, k - 1);
      assert Follows(states[k - 1], moves[k - 1], states[k]);
      StepInv(states[k - 1], moves[k - 1].0, moves[k - 1].1);
    }
  }

  /** Every node is in exactly one place: with a client, on the list, in the hands of
      exactly one thread, or flagged while some thread still holds a reference. */
  lemma Accounted(states: seq<State>, moves: seq<(nat, Call)>, k: nat, n: nat)
    requires Execution(states, moves) && k < |states| && n < |states[k].refs|
    ensures var s := states[k];
            && One(n in s.owned) + One(n in s.chain) + Claims(s, n) + One(Limbo(s, n)) == 1
            && (Limbo(s, n) ==> exists t :: 0 <= t < |s.pcs| && Plays(Holder, s.pcs[t], n))
  {
    Always(states, moves, k);
    var s := states[k];
    assert NodeInv(s, n);
    TotalNonNegative(Share(Slot, n), s.pcs);
    TotalNonNegative(Share(Quiet, n), s.pcs);
    TotalNonNegative(Share(Adder, n), s.pcs);
    if Limbo(s, n) {
      var t := TotalWitness(Share(Holder, n), s.pcs);
    }
  }

  /** The assertion after a successful compare-exchange (line 1498) never fires. */
  lemma TakenUnflagged(states: seq<State>, moves: seq<(nat, Call)>, k: nat, t: nat)
    requires Execution(states, moves) && k < |states| && t < |states[k].pcs|
    requires states[k].pcs[t].GetTake?
    ensures var s := states[k]; s.pcs[t].n < |s.refs| && 2 <= s.refs[s.pcs[t].n] < FLAG
  {
    Always(states, moves, k);
    var s := states[k];
    var n := s.pcs[t].n;
    assert PCInRange(s.pcs[t], |s.refs|) && NodeInv(s, n);
    TotalCovers(Share(Slot, n), s.pcs, t);
    TotalCovers(Share(Holder, n), s.pcs, t);
    TotalBounded(Share(Holder, n), s.pcs, 1);
    TotalNonNegative(Share(Quiet, n), s.pcs);
    TotalNonNegative(Share(Adder, n), s.pcs);
  }

  /** A compare-exchange of try_get that finds its node at the head installs the node's
      true successor: the thread unlinks exactly the first node of the list. */
  lemma UnlinksFirst(states: seq<State>, moves: seq<(nat, Call)>, k: nat, t: nat)
    requires Execution(states, moves) && k < |states| && t < |states[k].pcs|
    requires states[k].pcs[t].GetSwing? && states[k].head == Ptr(states[k].pcs[t].n)
    ensures var s := states[k];
            && s.Shaped()
            && s.chain == [s.pcs[t].n] + Step(s, t, Pass).chain
            && Follow(s.next, s.pcs[t].nx, |s.refs|) == s.chain[1..]
  {
    Always(states, moves, k);
    var s := states[k];
    assert ThreadInv(s, s.pcs[t]);
    DistinctBelow(s.chain, |s.refs|);
    FollowChain(s.next, s.chain, 1, |s.refs|);
  }

  /** Dropping a reference makes the thread link the node exactly when the node is
      flagged and nobody else holds a reference. */
  lemma LastDropLinks(states: seq<State>, moves: seq<(nat, Call)>, k: nat, t: nat)
    requires Execution(states, moves) && k < |states| && t < |states[k].pcs|
    requires states[k].pcs[t].GetDrop?
    ensures var s := states[k];
            && s.Shaped()
            && (Step(s, t, Pass).pcs[t].PutLoad? <==>
                  Limbo(s, s.pcs[t].n) && Number(s, Holder, s.pcs[t].n) == 1)
  {
    Always(states, moves, k);
    var s := states[k];
    var n := s.pcs[t].n;
    assert NodeInv(s, n);
    TotalCovers(Share(Holder, n), s.pcs, t);
    TotalBounded(Share(Holder, n), s.pcs, 1);
    TotalNonNegative(Share(Quiet, n), s.pcs);
    TotalNonNegative(Share(Slot, n), s.pcs);
    TotalNonNegative(Share(Adder, n), s.pcs);
  }

  /** The step about to be taken returns n from try_get. */
  predicate Returns(s: State, move: (nat, Call), n: nat) {
    move.0 < |s.pcs| && s.pcs[move.0] == GetTake(n)
  }

  /** The step about to be taken starts add(n). */
  predicate Adds(s: State, move: (nat, Call), n: nat) {
    move.0 < |s.pcs| && s.pcs[move.0] == Idle && move.1 == Call.Add(n) && n in s.owned
  }

  lemma {:induction false} StaysOwned(states: seq<State>, moves: seq<(nat, Call)>, i: nat, j: nat, n: nat)
    requires Execution(states, moves) && i < j <= |moves|
    requires Returns(states[i], moves[i], n)
    requires forall k :: i < k < j ==> !Adds(states[k], moves[k], n)
    ensures n in states[j].owned
    decreases j
  {
    if i < j - 1 {
      StaysOwned(states, moves, i, j - 1, n);
    }
    assert Follows(states[j - 1], moves[j - 1], states[j]);
  }

  /** No two calls of try_get return the same node unless an add of it starts in between. */
  lemma NoDoubleHandout(states: seq<State>, moves: seq<(nat, Call)>, i: nat, j: nat, n: nat)
    requires Execution(states, moves) && i < j < |moves|
    requires Returns(states[i], moves[i], n) && Returns(states[j], moves[j], n)
    ensures exists k :: i < k < j && Adds(states[k], moves[k], n)
  {
    if forall k :: i < k < j ==> !Adds(states[k], moves[k], n) {
      StaysOwned(states, moves, i, j, n);
      Always(states, moves, j);
      var s := states[j];
      assert PCInRange(s.pcs[moves[j].0], |s.refs|) && NodeInv(s, n);
      NotLinked(s, moves[j].0, n);
    }
  }

  /** The nodes met by following freeListNext from a pointer, at most fuel of them. */
  function Follow(next: seq<Link>, from: Link, fuel: nat): seq<nat>
    decreases fuel
  {
    if fuel == 0 || from.Null? || from.node >= |next| then []
    else [from.node] + Follow(next, next[from.node], fuel - 1)
  }

  lemma {:induction false} FollowChain(next: seq<Link>, chain: seq<nat>, i: nat, fuel: nat)
    requires forall k :: 0 <= k < |chain| ==> chain[k] < |next| && next[chain[k]] == Successor(chain, k)
    requires i <= |chain| <= i + fuel
    ensures Follow(next, if i < |chain| then Ptr(chain[i]) else Null, fuel) == chain[i..]
    decreases fuel
  {
    if i < |chain| {
      FollowChain(next, chain, i + 1, fuel - 1);
    }
  }

  /** When every thread is idle, each node is with a client or on the list, the list
      holds the only reference to what is on it, and walking the pointers from the
      head visits exactly the nodes that are not with clients, each once. */
  lemma Quiescent(states: seq<State>, moves: seq<(nat, Call)>, k: nat)
    requires Execution(states, moves) && k < |states|
    requires forall t :: 0 <= t < |states[k].pcs| ==> states[k].pcs[t] == Idle
    ensures var s := states[k];
            var walk := Follow(s.next, s.head, |s.refs|);
            && (forall n :: 0 <= n < |s.refs| ==> (n in walk <==> n !in s.owned))
            && (forall n :: 0 <= n < |s.refs| ==> s.refs[n] == One(n in walk))
            && (forall i, j :: 0 <= i < j < |walk| ==> walk[i] != walk[j])
  {
    Always(states, moves, k);
    var s := states[k];
    DistinctBelow(s.chain, |s.refs|);
    FollowChain(s.next, s.chain, 0, |s.refs|);
    forall n | 0 <= n < |s.refs|
      ensures n in s.chain <==> n !in s.owned
      ensures s.refs[n] == One(n in s.chain)
    {
      assert NodeInv(s, n);
      TotalZero(Share(Holder, n), s.pcs);
      TotalZero(Share(Slot, n), s.pcs);
      TotalZero(Share(Quiet, n), s.pcs);
      TotalZero(Share(Adder, n), s.pcs);
    }
  }

  // ---- What the operations answer ----

  /** The head a thread inside try_get loaded last and has yet to look at. */
  function Loaded(p: PC): Option<Link> {
    match p
    case GetLoop(h) => Some(h)
    case GetDrop(_, h) => Some(h)
    case PutLoad(_, Retry(h)) => Some(h)
    case PutNext(_, _, Retry(h)) => Some(h)
    case PutRefs(_, _, Retry(h)) => Some(h)
    case PutSwing(_, _, Retry(h)) => Some(h)
    case PutBack(_, _, Retry(h)) => Some(h)
    case _ => None
  }

  lemma LoadedStep(s: State, t: nat, call: Call, u: nat)
    requires s.Shaped() && t < |s.pcs| && u < |s.pcs| && Loaded(Step(s, t, call).pcs[u]).Some?
    ensures Loaded(s.pcs[u]) == Loaded(Step(s, t, call).pcs[u])
            || (u == t && s.head == Loaded(Step(s, t, call).pcs[u]).value)
  {
  }

  /** It was the head at a step of that thread, of the same call, since when it has loaded no other. */
  lemma {:induction false} LoadedWhen(states: seq<State>, moves: seq<(nat, Call)>, k: nat, t: nat) returns (j: nat)
    requires Execution(states, moves) && k < |states| && t < |states[k].pcs| && Loaded(states[k].pcs[t]).Some?
    ensures j < k && moves[j].0 == t && states[j].head == Loaded(states[k].pcs[t]).value
    ensures forall l :: j < l <= k ==> t < |states[l].pcs| && Loaded(states[l].pcs[t]) == Loaded(states[k].pcs[t])
  {
    if k == 0 {
      assert false;
    } else {
      assert Follows(states[k - 1], moves[k - 1], states[k]);
      LoadedStep(states[k - 1], moves[k - 1].0, moves[k - 1].1, t);
      hide Loaded, Step;
      if Loaded(states[k - 1].pcs[t]) == Loaded(states[k].pcs[t]) {
        j := LoadedWhen(states, moves, k - 1, t);
      } else {
        j := k - 1;
      }
    }
  }

  predicate InTryGet(p: PC) {
    InGet(p) || Loaded(p).Some?
  }

  /** try_get comes back without a node only if the list was empty when it last loaded the head. */
  lemma RefusedWhenEmpty(states: seq<State>, moves: seq<(nat, Call)>, k: nat) returns (j: nat)
    requires Execution(states, moves) && k < |moves|
    requires var t := moves[k].0;
             && t < |states[k].pcs| && t < |states[k + 1].pcs| && InTryGet(states[k].pcs[t])
             && states[k + 1].pcs[t] == Idle && !states[k].pcs[t].GetTake?
    ensures j < k && moves[j].0 == moves[k].0 && states[j].head == Null && states[j].chain == []
    ensures forall l :: j < l <= k ==> moves[k].0 < |states[l].pcs| && InTryGet(states[l].pcs[moves[k].0])
  {
    assert Follows(states[k], moves[k], states[k + 1]);
    j := LoadedWhen(states, moves, k, moves[k].0);
    Always(states, moves, j);
  }

  /** n steps of one thread with nobody else moving. */
  function Alone(s: State, t: nat, call: Call, n: nat): (s': State)
    requires s.Shaped() && t < |s.pcs|
    ensures s'.Shaped() && |s'.pcs| == |s.pcs|
    decreases n
  {
    if n == 0 then s else Alone(Step(s, t, call), t, call, n - 1)
  }

  /** With everybody idle a node on the list has the list's reference and no other; one with a client none. */
  lemma IdleRefs(states: seq<State>, moves: seq<(nat, Call)>, k: nat, n: nat)
    requires Execution(states, moves) && k < |states| && n < |states[k].refs|
    requires forall t :: 0 <= t < |states[k].pcs| ==> states[k].pcs[t] == Idle
    ensures states[k].Shaped() && states[k].refs[n] == One(n in states[k].chain)
  {
    Always(states, moves, k);
    var s := states[k];
    assert NodeInv(s, n);
    TotalZero(Share(Holder, n), s.pcs);
    TotalZero(Share(Slot, n), s.pcs);
    TotalZero(Share(Quiet, n), s.pcs);
    TotalZero(Share(Adder, n), s.pcs);
  }

  /** Undisturbed, try_get takes the first node of the list, within seven steps. */
  lemma LoneGetTakes(states: seq<State>, moves: seq<(nat, Call)>, k: nat, t: nat)
    requires Execution(states, moves) && k < |states| && t < |states[k].pcs| && states[k].chain != []
    requires forall v :: 0 <= v < |states[k].pcs| ==> states[k].pcs[v] == Idle
    ensures states[k].Shaped()
    ensures var s, s' := states[k], Alone(states[k], t, TryGet, 7);
            && s'.pcs[t] == Idle && s'.owned == s.owned + {s.chain[0]} && s'.chain == s.chain[1..]
  {
    Always(states, moves, k);
    IdleRefs(states, moves, k, states[k].chain[0]);
    LoneGetSteps(states[k], t);
  }

  lemma LoneGetSteps(s: State, t: nat)
    requires s.Shaped() && t < |s.pcs| && s.pcs[t] == Idle
    requires s.chain != [] && s.head == Ptr(s.chain[0]) && s.refs[s.chain[0]] == 1
    ensures var s' := Alone(s, t, TryGet, 7);
            s'.pcs[t] == Idle && s'.owned == s.owned + {s.chain[0]} && s'.chain == s.chain[1..]
  {
    var s1 := Step(s, t, TryGet);
    var s2 := Step(s1, t, TryGet);
    var s3 := Step(s2, t, TryGet);
    assert s3.pcs[t] == GetRef(s.chain[0], 1);
    var s4 := Step(s3, t, TryGet);
    var s5 := Step(s4, t, TryGet);
    var s6 := Step(s5, t, TryGet);
    assert s6.pcs[t] == GetTake(s.chain[0]);
    var s7 := Step(s6, t, TryGet);
    hide Step;
    assert Alone(s4, t, TryGet, 3) == Alone(s5, t, TryGet, 2) == Alone(s6, t, TryGet, 1) == Alone(s7, t, TryGet, 0);
    assert Alone(s, t, TryGet, 7) == Alone(s1, t, TryGet, 6) == Alone(s2, t, TryGet, 5) == Alone(s3, t, TryGet, 4);
  }

  /** Undisturbed, add puts its node at the front of the list, within six steps. */
  lemma LoneAddLinks(states: seq<State>, moves: seq<(nat, Call)>, k: nat, t: nat, n: nat)
    requires Execution(states, moves) && k < |states| && t < |states[k].pcs| && n in states[k].owned
    requires forall v :: 0 <= v < |states[k].pcs| ==> states[k].pcs[v] == Idle
    ensures states[k].Shaped()
    ensures var s, s' := states[k], Alone(states[k], t, Add(n), 6);
            && s'.pcs[t] == Idle && s'.owned == s.owned - {n} && s'.chain == [n] + s.chain
  {
    Always(states, moves, k);
    var s := states[k];
    assert n < |s.refs| && NodeInv(s, n);
    IdleRefs(states, moves, k, n);
    TotalZero(Share(Slot, n), s.pcs);
    TotalZero(Share(Quiet, n), s.pcs);
    TotalZero(Share(Adder, n), s.pcs);
    LoneAddSteps(s, t, n);
  }

  lemma LoneAddSteps(s: State, t: nat, n: nat)
    requires s.Shaped() && t < |s.pcs| && s.pcs[t] == Idle && n < |s.refs| && n in s.owned && s.refs[n] == 0
    ensures var s' := Alone(s, t, Add(n), 6);
            s'.pcs[t] == Idle && s'.owned == s.owned - {n} && s'.chain == [n] + s.chain
  {
    var s1 := Step(s, t, Add(n));
    var s2 := Step(s1, t, Add(n));
    assert s2.pcs[t] == PutLoad(n, Leave);
    var s3 := Step(s2, t, Add(n));
    var s4 := Step(s3, t, Add(n));
    var s5 := Step(s4, t, Add(n));
    assert s5.pcs[t] == PutSwing(n, s.head, Leave);
    var s6 := Step(s5, t, Add(n));
    assert s6.pcs[t] == Idle && s6.owned == s.owned - {n} && s6.chain == [n] + s.chain;
    hide Step;
    assert Alone(s3, t, Add(n), 3) == Alone(s4, t, Add(n), 2) == Alone(s5, t, Add(n), 1) == Alone(s6, t, Add(n), 0);
    assert Alone(s, t, Add(n), 6) == Alone(s1, t, Add(n), 5) == Alone(s2, t, Add(n), 4) == Alone(s3, t, Add(n), 3);
  }
}
