/** The timer interrupt's round-robin scheduler (src/interrupts.rs:141-196, src/multitasking.rs:11-85). */
module RoundRobin {

  datatype ProcStatus = Awake | Sleeping

  // What an interrupt saves and restores.
  datatype Regs = Regs(ip: nat, rsp: nat, flags: nat)

  datatype Process = Process(pid: nat, regs: Regs, sleepTimer: real, status: ProcStatus)

  const TICK: real := 54.9254

  /** A sleeper's timer runs down, and past zero it is awake. */
  function Ticked(p: Process): Process {
    if p.status.Awake? then p
    else if p.sleepTimer - TICK < 0.0 then p.(sleepTimer := 0.0, status := Awake)
    else p.(sleepTimer := p.sleepTimer - TICK)
  }

  function TickedAll(queue: seq<Process>): (r: seq<Process>)
    ensures |r| == |queue|
  {
    seq(|queue|, i requires 0 <= i < |queue| => Ticked(queue[i]))
  }

  /** The process d places further on in the ring. */
  function Ahead(cur: nat, d: nat, n: nat): (p: nat)
    requires cur < n && d <= n
    ensures p < n
  {
    if cur + d < n then cur + d else cur + d - n
  }

  /** How many places process p is ahead of cur; n if it is cur itself. */
  function Distance(cur: nat, p: nat, n: nat): (d: nat)
    requires cur < n && p < n
    ensures 0 < d <= n && Ahead(cur, d, n) == p
  {
    if p > cur then p - cur else p + n - cur
  }

  /** The next process to run: the nearest one ahead that is awake, or the current one again. */
  ghost predicate Picks(queue: seq<Process>, cur: nat, next: nat) {
    && cur < |queue| && next < |queue|
    && (next != cur ==> queue[next].status.Awake?)
    && (forall d :: 0 < d < Distance(cur, next, |queue|) ==> !queue[Ahead(cur, d, |queue|)].status.Awake?)
  }

  datatype State = State(current: nat, queue: seq<Process>, firstTime: bool)

  /** What the handler has done when it looks for the next process. */
  function Prepared(s: State, frame: Regs): State
    requires s.current < |s.queue|
  {
    var queue := TickedAll(s.queue);
    s.(queue := if s.firstTime then queue else queue[s.current := queue[s.current].(regs := frame)], firstTime := false)
  }

  ghost predicate Tick(s: State, frame: Regs, s': State, frame': Regs) {
    && s.current < |s.queue|
    && s' == Prepared(s, frame).(current := s'.current)
    && Picks(s'.queue, s.current, s'.current)
    && frame' == s'.queue[s'.current].regs
  }

  class Scheduler {
    var currentPid: nat
    var processQueue: seq<Process>
    var lastPid: nat
    var firstTime: bool

    function At(): State
      reads this
    {
      State(currentPid, processQueue, firstTime)
    }

    constructor ()
      ensures At() == State(0, [], true) && lastPid == 0
    {
      currentPid, processQueue, lastPid, firstTime := 0, [], 0, true;
    }

    /** A new process is awake, with interrupts enabled and an empty stack. */
    method NewProcess(funcPtr: nat, stackTop: nat)
      modifies this
      ensures processQueue == old(processQueue) + [Process(lastPid, Regs(funcPtr, stackTop, 0x200), 0.0, Awake)]
      ensures lastPid == old(lastPid) + 1 && currentPid == old(currentPid) && firstTime == old(firstTime)
    {
      processQueue := processQueue + [Process(lastPid + 1, Regs(funcPtr, stackTop, 0x200), 0.0, Awake)];
      lastPid := lastPid + 1;
    }

    /** The loop that looks for the next process. */
    method FindNext() returns (nextPid: nat)
      requires currentPid < |processQueue|
      ensures Picks(processQueue, currentPid, nextPid)
    {
      var n := |processQueue|;
      nextPid := (currentPid + 1) % n;
      ghost var d := 1;
      AheadMod(currentPid, 0, n);
      while true
        invariant 0 < d <= n && nextPid == Ahead(currentPid, d, n)
        invariant forall e :: 0 < e < d ==> !processQueue[Ahead(currentPid, e, n)].status.Awake?
        decreases n - d
      {
        if nextPid == currentPid {
          break;
        }
        if processQueue[nextPid].status == Awake {
          break;
        }
        AheadMod(currentPid, d, n);
        nextPid := (nextPid + 1) % n;
        d := d + 1;
      }
    }

    /** timer_interrupt_handler. With no process at all the code divides by zero. */
    method TimerInterrupt(frame: Regs) returns (frame': Regs)
      requires currentPid < |processQueue|
      modifies this
      ensures Tick(old(At()), frame, At(), frame') && lastPid == old(lastPid)
    {
      for i := 0 to |processQueue|
        invariant |processQueue| == |old(processQueue)|
        invariant currentPid == old(currentPid) && firstTime == old(firstTime) && lastPid == old(lastPid)
        invariant forall k :: 0 <= k < |processQueue| ==>
                    processQueue[k] == if k < i then Ticked(old(processQueue)[k]) else old(processQueue)[k]
      {
        var p := processQueue[i];
        if p.status == Sleeping {
          p := p.(sleepTimer := p.sleepTimer - TICK);
          if p.sleepTimer < 0.0 {
            p := p.(sleepTimer := 0.0);
            p := p.(status := Awake);
          }
          processQueue := processQueue[i := p];
        }
      }
      assert processQueue == TickedAll(old(processQueue));
      if firstTime {
        firstTime := false;
      } else {
        processQueue := processQueue[currentPid := processQueue[currentPid].(regs := frame)];
      }
      var next := FindNext();
      currentPid := next;
      frame' := processQueue[currentPid].regs;
    }
  }

  lemma AheadMod(cur: nat, d: nat, n: nat)
    requires cur < n && d < n
    ensures (Ahead(cur, d, n) + 1) % n == Ahead(cur, d + 1, n)
  {
    var p := Ahead(cur, d, n) + 1;
    if p < n {
      assert p % n == p;
    } else {
      assert p == n && n % n == 0;
    }
  }

  // ---- Sleeping ----

  function TickedTimes(p: Process, m: nat): Process {
    if m == 0 then p else Ticked(TickedTimes(p, m - 1))
  }

  /** A sleeper wakes at the first tick that takes the time elapsed past its timer, no earlier and no later. */
  lemma {:induction false} WakesOnTime(p: Process, m: nat)
    requires p.status.Sleeping? && p.sleepTimer >= 0.0
    ensures TickedTimes(p, m).status.Awake? <==> m as real * TICK > p.sleepTimer
    ensures TickedTimes(p, m).status.Sleeping? ==> TickedTimes(p, m).sleepTimer == p.sleepTimer - m as real * TICK
  {
    if m > 0 {
      WakesOnTime(p, m - 1);
      assert m as real * TICK == (m - 1) as real * TICK + TICK;
    }
  }

  // ---- Fairness ----

  /** Until it runs, a process that is awake comes nearer with every tick. */
  lemma ComesNearer(queue: seq<Process>, cur: nat, next: nat, p: nat)
    requires Picks(queue, cur, next) && p < |queue| && queue[p].status.Awake? && next != p
    ensures Distance(next, p, |queue|) < Distance(cur, p, |queue|)
  {
    var n := |queue|;
    assert Ahead(cur, Distance(cur, p, n), n) == p;
  }

  // ---- Whole runs ----

  /** Between ticks processes may go to sleep or be woken, and new ones may be appended; nothing else
      changes. */
  ghost predicate Between(s: State, t: State) {
    && t.current == s.current && t.firstTime == s.firstTime && |t.queue| >= |s.queue|
    && (forall i :: 0 <= i < |s.queue| ==>
          t.queue[i] == s.queue[i].(sleepTimer := t.queue[i].sleepTimer, status := t.queue[i].status))
  }

  // The states in which the ticks strike, the registers they interrupt, and those they resume with.
  datatype Ticking = Ticking(states: seq<State>, frames: seq<Regs>, resumed: seq<Regs>)

  ghost predicate Execution(r: Ticking) {
    && |r.states| == |r.frames| + 1 == |r.resumed| + 1
    && r.states[0].firstTime && r.states[0].current < |r.states[0].queue|
    && (forall k :: 0 <= k < |r.frames| ==> Follows(r, k))
  }

  ghost predicate Follows(r: Ticking, k: nat)
    requires k < |r.frames| == |r.resumed| == |r.states| - 1
  {
    exists t :: Tick(r.states[k], r.frames[k], t, r.resumed[k]) && Between(t, r.states[k + 1])
  }

  lemma {:induction false} Progress(r: Ticking, k: nat)
    requires Execution(r) && k < |r.states|
    ensures r.states[k].current < |r.states[k].queue| && (r.states[k].firstTime <==> k == 0)
    ensures k > 0 ==> |r.states[k - 1].queue| <= |r.states[k].queue| && r.states[k].current < |r.states[k - 1].queue|
  {
    if k > 0 {
      Progress(r, k - 1);
      assert Follows(r, k - 1);
    }
  }

  lemma {:induction false} NeverFewer(r: Ticking, j: nat, k: nat)
    requires Execution(r) && j <= k < |r.states|
    ensures |r.states[j].queue| <= |r.states[k].queue|
    decreases k
  {
    if j < k {
      NeverFewer(r, j, k - 1);
      Progress(r, k);
    }
  }

  /** A process that is awake at every tick runs within as many ticks as there are processes by then,
      those that were started meanwhile included. */
  lemma {:induction false} RunsSoon(r: Ticking, j: nat, end: nat, p: nat) returns (k: nat)
    requires Execution(r) && end < |r.states| && j + |r.states[end].queue| <= end
    requires p < |r.states[j].queue|
    requires forall i :: j <= i <= end ==> p < |r.states[i].queue| && r.states[i].queue[p].status.Awake?
    ensures j < k <= end && r.states[k].current == p
  {
    Progress(r, j);
    k := RunsWithin(r, j, j, end, p);
  }

  /** The distance falls by one with every tick, but for the processes that were appended. */
  lemma {:induction false} RunsWithin(r: Ticking, j: nat, i: nat, end: nat, p: nat) returns (k: nat)
    requires Execution(r) && j <= i <= end < |r.states| && j + |r.states[end].queue| <= end
    requires p < |r.states[i].queue| && r.states[i].current < |r.states[i].queue|
    requires Distance(r.states[i].current, p, |r.states[i].queue|) <= |r.states[i].queue| - (i - j)
    requires forall l :: j <= l <= end ==> p < |r.states[l].queue| && r.states[l].queue[p].status.Awake?
    ensures j < k <= end && r.states[k].current == p
    decreases end - i
  {
    NeverFewer(r, i, end);
    assert i < end;
    Progress(r, i + 1);
    assert Follows(r, i);
    var t :| Tick(r.states[i], r.frames[i], t, r.resumed[i]) && Between(t, r.states[i + 1]);
    if r.states[i + 1].current == p {
      return i + 1;
    }
    ComesNearer(t.queue, r.states[i].current, t.current, p);
    k := RunsWithin(r, j, i + 1, end, p);
  }

  /** Process p goes to sleep before tick j, and nobody wakes it or sets its timer until tick k. */
  ghost predicate SleepsThrough(r: Ticking, p: nat, j: nat, k: nat)
    requires Execution(r) && j <= k < |r.states|
  {
    && p < |r.states[j].queue| && r.states[j].queue[p].status.Sleeping? && r.states[j].queue[p].sleepTimer >= 0.0
    && (forall i :: j <= i < k ==> Undisturbed(r, p, i))
  }

  /** What the tick left of its timer and status is what the next tick finds. */
  ghost predicate Undisturbed(r: Ticking, p: nat, i: nat)
    requires Execution(r) && i < |r.frames|
  {
    && p < |r.states[i].queue| && p < |r.states[i + 1].queue|
    && var ticked, found := Ticked(r.states[i].queue[p]), r.states[i + 1].queue[p];
       found.status == ticked.status && found.sleepTimer == ticked.sleepTimer
  }

  /** In a run too, a sleeper is awake exactly once the ticks have taken more time than its timer had. */
  lemma {:induction false} WakesInRun(r: Ticking, p: nat, j: nat, k: nat)
    requires Execution(r) && j <= k < |r.states| && SleepsThrough(r, p, j, k)
    ensures p < |r.states[k].queue|
    ensures r.states[k].queue[p].status.Awake? <==> (k - j) as real * TICK > r.states[j].queue[p].sleepTimer
  {
    TimerRuns(r, p, j, k);
    WakesOnTime(r.states[j].queue[p], k - j);
  }

  lemma {:induction false} TimerRuns(r: Ticking, p: nat, j: nat, k: nat)
    requires Execution(r) && j <= k < |r.states| && SleepsThrough(r, p, j, k)
    ensures p < |r.states[k].queue|
    ensures var times, found := TickedTimes(r.states[j].queue[p], k - j), r.states[k].queue[p];
            found.status == times.status && found.sleepTimer == times.sleepTimer
    decreases k
  {
    if j < k {
      TimerRuns(r, p, j, k - 1);
      assert Undisturbed(r, p, k - 1);
    }
  }

  /** So a sleeper that is left alone runs once its time is up and every process has had its turn: by
      the given end, if the ticks from j to awake outlast its timer, and as many ticks follow as there
      are processes then. */
  lemma SleeperRuns(r: Ticking, p: nat, j: nat, awake: nat, end: nat) returns (k: nat)
    requires Execution(r) && j <= awake <= end < |r.states| && SleepsThrough(r, p, j, end)
    requires (awake - j) as real * TICK > r.states[j].queue[p].sleepTimer
    requires awake + |r.states[end].queue| <= end
    ensures awake < k <= end && r.states[k].current == p
  {
    forall i | awake <= i <= end
      ensures p < |r.states[i].queue| && r.states[i].queue[p].status.Awake?
    {
      assert SleepsThrough(r, p, j, i);
      WakesInRun(r, p, j, i);
      assert (i - j) as real * TICK >= (awake - j) as real * TICK;
    }
    k := RunsSoon(r, awake, end, p);
  }

  // ---- Context switches ----

  /** Between two ticks at which it does not run, a process keeps its registers. */
  lemma {:induction false} RegsKept(r: Ticking, i: nat, k: nat, p: nat)
    requires Execution(r) && i <= k < |r.states| && p < |r.states[i].queue|
    requires forall j :: i <= j < k ==> r.states[j].current != p || j == 0
    ensures p < |r.states[k].queue| && r.states[k].queue[p].regs == r.states[i].queue[p].regs
    decreases k
  {
    if i < k {
      RegsKept(r, i, k - 1, p);
      Progress(r, k - 1);
      assert Follows(r, k - 1);
    }
  }

  /** A dispatched process resumes with exactly the registers it had when it was last interrupted. */
  lemma ResumesWhereInterrupted(r: Ticking, i: nat, k: nat)
    requires Execution(r) && 0 < i <= k < |r.frames|
    requires r.states[i].current == r.states[k + 1].current
    requires forall j :: i < j <= k ==> r.states[j].current != r.states[k + 1].current
    ensures r.resumed[k] == r.frames[i]
  {
    Progress(r, i);
    assert Follows(r, i) && Follows(r, k);
    RegsKept(r, i + 1, k + 1, r.states[k + 1].current);
  }

  /** If it was never interrupted, with those it was created with, whenever that was. */
  lemma StartsFresh(r: Ticking, born: nat, k: nat)
    requires Execution(r) && born <= k < |r.frames|
    requires r.states[k + 1].current < |r.states[born].queue|
    requires born > 0 ==> |r.states[born - 1].queue| <= r.states[k + 1].current
    requires forall j :: born < j <= k ==> r.states[j].current != r.states[k + 1].current
    ensures r.resumed[k] == r.states[born].queue[r.states[k + 1].current].regs
  {
    Progress(r, born);
    assert Follows(r, k);
    RegsKept(r, born, k + 1, r.states[k + 1].current);
  }
}
