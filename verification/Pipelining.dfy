/** Calls on promises in the archived runtime: eval_message_node and eval_promise_local
    (archive/pleroma_src/hylic_eval.cpp:42-47, 90-156, 206-287) and the handling of responses
    (archive/pleroma_src/pleroma.cpp:93-100). */
module Pipelining {
  import opened Bytes
  import opened Tally

  datatype Address = Address(node: nat, vat: nat, entity: nat)

  datatype Value = EntityRef(address: Address) | Datum(n: int) | PromiseRef(id: nat)

  datatype Ask = Ask(target: Value, name: Text, args: seq<Value>)

  // DependPromFunc. A target of None is a node id of -1, an argument of None a null pointer.
  // asked is written alongside and decides nothing.
  datatype Call = Call(
    promise: nat, target: Option<Address>, targetDependsOn: Option<nat>, name: Text,
    args: seq<Option<Value>>, dependsOn: map<nat, nat>, asked: Ask)

  // dependents are pointers to calls, here positions in the list of all calls.
  datatype PromiseResult = PromiseResult(resolved: bool, results: seq<Value>, dependents: seq<nat>)

  datatype Msg = Msg(target: Address, src: Address, name: Text, values: seq<Value>, promise: nat)

  datatype State = State(promises: map<nat, PromiseResult>, base: nat, calls: seq<Call>, out: seq<Msg>)

  const UNRESOLVED := PromiseResult(false, [], [])

  // ---- Sending ----

  predicate NeedsPromise(v: Value, promises: map<nat, PromiseResult>) {
    v.PromiseRef? && v.id in promises && !promises[v.id].resolved
  }

  /** The address a call goes to, if it is known at once. */
  function KnownTarget(v: Value, promises: map<nat, PromiseResult>): Option<Address> {
    match v
    case EntityRef(a) => Some(a)
    case PromiseRef(p) =>
      if p in promises && promises[p].resolved && promises[p].results != [] && promises[p].results[0].EntityRef?
      then Some(promises[p].results[0].address) else None
    case Datum(_) => None
  }

  /** Where the code panics: the target is neither an entity nor a promise, its promise does not exist,
      or was resolved to something else. */
  predicate CanAsk(s: State, a: Ask) {
    KnownTarget(a.target, s.promises).Some? || NeedsPromise(a.target, s.promises)
  }

  function AddDependent(promises: map<nat, PromiseResult>, p: nat, k: nat): map<nat, PromiseResult> {
    var r := if p in promises then promises[p] else UNRESOLVED;
    promises[p := r.(dependents := r.dependents + [k])]
  }

  /** The loop that copies the arguments in and leaves a gap for every promise. */
  function CopyArgs(args: seq<Value>, promises: map<nat, PromiseResult>, c: Call, k: nat): (map<nat, PromiseResult>, Call) {
    if args == [] then (promises, c)
    else
      match args[0]
      case PromiseRef(p) =>
        CopyArgs(args[1..], AddDependent(promises, p, k),
                 c.(args := c.args + [None], dependsOn := c.dependsOn[p := |c.args|]), k)
      case v => CopyArgs(args[1..], promises, c.(args := c.args + [Some(v)]), k)
  }

  predicate HasPromise(args: seq<Value>) {
    exists i :: 0 <= i < |args| && args[i].PromiseRef?
  }

  /** The asynchronous branch of eval_message_node. */
  function Send(s: State, a: Ask, src: Address): State
    requires CanAsk(s, a)
  {
    var pid := s.base;
    var started := s.(promises := s.promises[pid := UNRESOLVED], base := s.base + 1);
    var target := KnownTarget(a.target, s.promises);
    if target.None? || HasPromise(a.args) then
      var k := |s.calls|;
      var c := Call(pid, target, if target.None? then Some(a.target.id) else None, a.name, [], map[], a);
      var promises := if target.None? then AddDependent(started.promises, a.target.id, k) else started.promises;
      var (promises', c') := CopyArgs(a.args, promises, c, k);
      started.(promises := promises', calls := s.calls + [c'])
    else
      started.(out := s.out + [Msg(target.value, src, a.name, a.args, pid)])
  }

  // ---- Resolving ----

  /** Filling in what a call was waiting for. */
  function Satisfied(c: Call, p: nat, v: Value): Call {
    if c.targetDependsOn == Some(p) then
      if v.EntityRef? then c.(target := Some(v.address)) else c
    else if p in c.dependsOn && c.dependsOn[p] < |c.args| then c.(args := c.args[c.dependsOn[p] := Some(v)])
    else c
  }

  /** The message guard. */
  predicate Ready(c: Call) {
    c.target.Some? && forall i :: 0 <= i < |c.args| ==> c.args[i].Some?
  }

  function MsgOf(c: Call, src: Address): Msg
    requires Ready(c)
  {
    Msg(c.target.value, src, c.name, seq(|c.args|, i requires 0 <= i < |c.args| => c.args[i].value), c.promise)
  }

  /** The loop of eval_promise_local over the dependents. */
  function FireAll(calls: seq<Call>, out: seq<Msg>, deps: seq<nat>, p: nat, v: Value, src: Address): (r: (seq<Call>, seq<Msg>))
    ensures |r.0| == |calls|
    decreases |deps|
  {
    if deps == [] then (calls, out)
    else
      var k := deps[0];
      if k >= |calls| then FireAll(calls, out, deps[1..], p, v, src)
      else
        var c := Satisfied(calls[k], p, v);
        FireAll(calls[k := c], if Ready(c) then out + [MsgOf(c, src)] else out, deps[1..], p, v, src)
  }

  /** A response for promise p; without such a promise it is ignored. */
  function Resolve(s: State, p: nat, values: seq<Value>, src: Address): State
    requires values != []
  {
    if p !in s.promises then s
    else
      var r := s.promises[p].(results := values, resolved := true);
      var (calls, out) := FireAll(s.calls, s.out, r.dependents, p, values[0], src);
      s.(promises := s.promises[p := r], calls := calls, out := out)
  }

  // ---- Updating a vat in place ----

  class Vat {
    var promises: map<nat, PromiseResult>
    var promiseIdBase: nat
    var calls: seq<Call>
    var outMessages: seq<Msg>

    function At(): State
      reads this
    {
      State(promises, promiseIdBase, calls, outMessages)
    }

    method NewPromise() returns (pid: nat)
      modifies this`promises, this`promiseIdBase
      ensures pid == old(promiseIdBase) && promiseIdBase == pid + 1 && promises == old(promises)[pid := UNRESOLVED]
    {
      pid := promiseIdBase;
      promises := promises[pid := UNRESOLVED];
      promiseIdBase := promiseIdBase + 1;
    }

    method EvalMessage(a: Ask, src: Address) returns (pid: nat)
      requires CanAsk(At(), a)
      requires promiseIdBase !in promises
      modifies this
      ensures At() == Send(old(At()), a, src) && pid == old(promiseIdBase)
    {
      pid := NewPromise();
      var target := KnownTarget(a.target, promises);
      assert target == KnownTarget(a.target, old(promises));
      var promised := false;
      for i := 0 to |a.args|
        invariant promises == old(promises)[pid := UNRESOLVED] && promiseIdBase == pid + 1
        invariant calls == old(calls) && outMessages == old(outMessages)
        invariant promised <==> HasPromise(a.args[..i])
      {
        HasPromiseSnoc(a.args, i);
        if a.args[i].PromiseRef? {
          promised := true;
        }
      }
      assert a.args[..|a.args|] == a.args;
      if target.None? || promised {
        var k := |calls|;
        var c := Call(pid, target, if target.None? then Some(a.target.id) else None, a.name, [], map[], a);
        if target.None? {
          promises := AddDependent(promises, a.target.id, k);
        }
        ghost var start, first := promises, c;
        for i := 0 to |a.args|
          invariant calls == old(calls) && outMessages == old(outMessages) && promiseIdBase == pid + 1
          invariant CopyArgs(a.args, start, first, k) == CopyArgs(a.args[i..], promises, c, k)
        {
          assert a.args[i..][1..] == a.args[i + 1..];
          if a.args[i].PromiseRef? {
            promises := AddDependent(promises, a.args[i].id, k);
            c := c.(args := c.args + [None], dependsOn := c.dependsOn[a.args[i].id := |c.args|]);
          } else {
            c := c.(args := c.args + [Some(a.args[i])]);
          }
        }
        calls := calls + [c];
      } else {
        outMessages := outMessages + [Msg(target.value, src, a.name, a.args, pid)];
      }
    }

    method ProcessResponse(p: nat, values: seq<Value>, src: Address)
      requires values != []
      modifies this
      ensures At() == Resolve(old(At()), p, values, src)
    {
      if p !in promises {
        return;
      }
      promises := promises[p := promises[p].(results := values)];
      promises := promises[p := promises[p].(resolved := true)];
      var deps := promises[p].dependents;
      for i := 0 to |deps|
        invariant promises == old(promises)[p := old(promises)[p].(results := values, resolved := true)]
        invariant promiseIdBase == old(promiseIdBase)
        invariant FireAll(old(calls), old(outMessages), deps, p, values[0], src)
               == FireAll(calls, outMessages, deps[i..], p, values[0], src)
      {
        assert deps[i..][1..] == deps[i + 1..];
        var k := deps[i];
        if k < |calls| {
          calls := calls[k := Satisfied(calls[k], p, values[0])];
          if Ready(calls[k]) {
            outMessages := outMessages + [MsgOf(calls[k], src)];
          }
        }
      }
    }
  }

  lemma HasPromiseSnoc(args: seq<Value>, i: nat)
    requires i < |args|
    ensures HasPromise(args[..i + 1]) <==> HasPromise(args[..i]) || args[i].PromiseRef?
  {
    if HasPromise(args[..i]) {
      var j :| 0 <= j < i && args[..i][j].PromiseRef?;
      assert args[..i + 1][j].PromiseRef?;
    }
    if args[i].PromiseRef? {
      assert args[..i + 1][i].PromiseRef?;
    }
  }

  // ---- What a call waits for ----

  /** The call waits for this promise. */
  predicate Waits(c: Call, p: nat) {
    c.targetDependsOn == Some(p) || p in c.dependsOn
  }

  /** All its promises are different: no argument slot shares one with another slot or with the target. */
  ghost predicate Separate(c: Call) {
    && (forall i :: 0 <= i < |c.asked.args| && c.asked.args[i].PromiseRef? ==> Owns(c, i))
    && (forall p :: p in c.dependsOn ==> c.dependsOn[p] < |c.asked.args| && c.asked.args[c.dependsOn[p]] == PromiseRef(p))
  }

  /** The promise of slot i will fill that slot. */
  predicate Owns(c: Call, i: nat)
    requires i < |c.asked.args| && c.asked.args[i].PromiseRef?
  {
    var p := c.asked.args[i].id;
    p in c.dependsOn && c.dependsOn[p] == i && c.targetDependsOn != Some(p)
  }

  function Result(promises: map<nat, PromiseResult>, p: nat): Option<Value> {
    if p in promises && promises[p].resolved && promises[p].results != [] then Some(promises[p].results[0]) else None
  }

  /** What slot i holds: the argument given, or its promise's result once there is one. */
  function Filling(v: Value, promises: map<nat, PromiseResult>): Option<Value> {
    if v.PromiseRef? then Result(promises, v.id) else Some(v)
  }

  function Occurrences(s: seq<nat>, k: nat): int {
    Total(IsCall(k), s)
  }

  function IsCall(k: nat): nat -> int {
    (j: nat) => if j == k then 1 else 0
  }

  function IsFor(p: nat): Msg -> int {
    (m: Msg) => if m.promise == p then 1 else 0
  }

  ghost predicate PromiseOk(r: PromiseResult) {
    r.resolved ==> r.results != []
  }

  /** The call's promises are different, and it holds exactly the results there are so far. */
  ghost predicate Filled(c: Call, promises: map<nat, PromiseResult>) {
    && Separate(c) && |c.args| == |c.asked.args|
    && (forall i :: 0 <= i < |c.args| ==> c.args[i] == Filling(c.asked.args[i], promises))
    && (c.targetDependsOn.Some? ==>
          c.target == (match Result(promises, c.targetDependsOn.value)
                       case Some(EntityRef(a)) => Some(a)
                       case _ => None))
    && (c.targetDependsOn.None? ==> c.target.Some?)
  }

  /** Each promise the call waits for points at it once, and no other does. */
  ghost predicate Listed(c: Call, promises: map<nat, PromiseResult>, k: nat) {
    && (forall p :: Waits(c, p) ==> p in promises && Occurrences(promises[p].dependents, k) == 1)
    && (forall p :: p in promises && !Waits(c, p) ==> k !in promises[p].dependents)
  }

  /** The call has been sent once, as it stands, if it is complete, and else not. */
  ghost predicate Sent(c: Call, out: seq<Msg>) {
    && Total(IsFor(c.promise), out) == (if Ready(c) then 1 else 0)
    && (Ready(c) ==> exists src :: MsgOf(c, src) in out)
  }

  ghost predicate CallInv(s: State, k: nat)
    requires k < |s.calls|
  {
    Filled(s.calls[k], s.promises) && Listed(s.calls[k], s.promises, k) && Sent(s.calls[k], s.out)
  }

  /** Slot i can never be filled: its promise fills another slot, or the target, or was resolved before. */
  ghost predicate Stuck(s: State, k: nat, i: nat)
    requires k < |s.calls|
  {
    var c := s.calls[k];
    && i < |c.args| == |c.asked.args| && c.asked.args[i].PromiseRef? && c.args[i] == None
    && (!Owns(c, i) || (c.asked.args[i].id in s.promises && s.promises[c.asked.args[i].id].resolved))
    && (forall p :: p in c.dependsOn ==> c.dependsOn[p] < |c.args| && c.asked.args[c.dependsOn[p]] == PromiseRef(p))
    && Total(IsFor(c.promise), s.out) == 0
  }

  /** Numbers are given out once, dependents point at calls that wait for the promise: the assertion in
      eval_promise_local cannot fail. */
  ghost predicate Shaped(s: State) {
    && (forall p :: p in s.promises ==> PromiseOk(s.promises[p]) && Pointers(s, p))
    && (forall p :: p in s.promises ==> p < s.base)
    && (forall k :: 0 <= k < |s.calls| ==> s.calls[k].promise < s.base)
    && (forall j, k :: 0 <= j < k < |s.calls| ==> s.calls[j].promise != s.calls[k].promise)
    && (forall i :: 0 <= i < |s.out| ==> s.out[i].promise < s.base)
  }

  ghost predicate Pointers(s: State, p: nat)
    requires p in s.promises
  {
    forall i :: 0 <= i < |s.promises[p].dependents| ==>
      s.promises[p].dependents[i] < |s.calls| && Waits(s.calls[s.promises[p].dependents[i]], p)
  }

  // ---- Steps ----

  datatype Move = Sends(a: Ask, src: Address) | Answers(p: nat, values: seq<Value>, src: Address)

  /** Promises come from this vat. A promise is resolved at most once, to a value that is not a promise,
      and to an entity if a call waits to be sent to it. */
  ghost predicate CanMove(s: State, m: Move) {
    match m
    case Sends(a, _) =>
      CanAsk(s, a) && forall i :: 0 <= i < |a.args| && a.args[i].PromiseRef? ==> a.args[i].id in s.promises
    case Answers(p, values, _) =>
      && values != [] && !values[0].PromiseRef?
      && (p in s.promises ==>
            && !s.promises[p].resolved
            && (forall k :: 0 <= k < |s.calls| && s.calls[k].targetDependsOn == Some(p) ==> values[0].EntityRef?))
  }

  ghost function Step(s: State, m: Move): State
    requires CanMove(s, m)
  {
    match m
    case Sends(a, src) => Send(s, a, src)
    case Answers(p, values, src) => Resolve(s, p, values, src)
  }

  // ---- Resolving, seen from one call ----

  /** Working through the dependents changes only calls that are among them, and sends only for them. */
  lemma {:induction false} FireOthers(calls: seq<Call>, out: seq<Msg>, deps: seq<nat>, p: nat, v: Value, src: Address, k: nat)
    requires k < |calls| && k !in deps
    requires forall j :: 0 <= j < |calls| && j != k ==> calls[j].promise != calls[k].promise
    ensures var (calls', out') := FireAll(calls, out, deps, p, v, src);
            && calls'[k] == calls[k] && out <= out'
            && Total(IsFor(calls[k].promise), out') == Total(IsFor(calls[k].promise), out)
    decreases |deps|
  {
    if deps != [] {
      var j := deps[0];
      if j >= |calls| {
        FireOthers(calls, out, deps[1..], p, v, src, k);
      } else {
        var c := Satisfied(calls[j], p, v);
        var out' := if Ready(c) then out + [MsgOf(c, src)] else out;
        FireOthers(calls[j := c], out', deps[1..], p, v, src, k);
        if Ready(c) {
          TotalConcat(IsFor(calls[k].promise), out, [MsgOf(c, src)]);
        }
      }
    }
  }

  /** A call that is there once is satisfied once, and sent if that completes it. */
  lemma {:induction false} FireOnce(calls: seq<Call>, out: seq<Msg>, deps: seq<nat>, p: nat, v: Value, src: Address, k: nat)
    requires k < |calls| && Occurrences(deps, k) == 1
    requires forall j :: 0 <= j < |calls| && j != k ==> calls[j].promise != calls[k].promise
    ensures var (calls', out') := FireAll(calls, out, deps, p, v, src);
            && calls'[k] == Satisfied(calls[k], p, v) && out <= out'
            && Total(IsFor(calls[k].promise), out')
               == Total(IsFor(calls[k].promise), out) + (if Ready(calls'[k]) then 1 else 0)
            && (Ready(calls'[k]) ==> MsgOf(calls'[k], src) in out')
    decreases |deps|
  {
    var j := deps[0];
    if j >= |calls| {
      FireOnce(calls, out, deps[1..], p, v, src, k);
    } else {
      var c := Satisfied(calls[j], p, v);
      var more := if Ready(c) then [MsgOf(c, src)] else [];
      assert out + [] == out;
      TotalConcat(IsFor(calls[k].promise), out, more);
      if j == k {
        NotAgain(deps[1..], k);
        FireOthers(calls[j := c], out + more, deps[1..], p, v, src, k);
        var out' := FireAll(calls[j := c], out + more, deps[1..], p, v, src).1;
        assert more != [] ==> out'[|out|] == more[0];
        TotalNone(IsFor(calls[k].promise), more);
      } else {
        FireOnce(calls[j := c], out + more, deps[1..], p, v, src, k);
      }
    }
  }

  lemma TotalNone<T>(f: T -> int, s: seq<T>)
    ensures Total(f, s) == if s == [] then 0 else if |s| == 1 then f(s[0]) else Total(f, s)
  {
  }

  lemma {:induction false} NotAgain(deps: seq<nat>, k: nat)
    requires Occurrences(deps, k) == 0
    ensures k !in deps
  {
    forall i | 0 <= i < |deps|
      ensures deps[i] != k
    {
      TotalCovers(IsCall(k), deps, i);
    }
  }

  /** A stuck slot stays empty, so its call is not sent. */
  lemma {:induction false} FireStuck(calls: seq<Call>, out: seq<Msg>, deps: seq<nat>, p: nat, v: Value, src: Address, k: nat, i: nat)
    requires k < |calls|
    requires forall j :: 0 <= j < |calls| && j != k ==> calls[j].promise != calls[k].promise
    requires i < |calls[k].args| == |calls[k].asked.args| && calls[k].args[i] == None
    requires p in calls[k].dependsOn && calls[k].dependsOn[p] == i ==> calls[k].targetDependsOn == Some(p)
    ensures var (calls', out') := FireAll(calls, out, deps, p, v, src);
            && |calls'[k].args| == |calls[k].args| && calls'[k].args[i] == None
            && calls'[k].asked == calls[k].asked && calls'[k].dependsOn == calls[k].dependsOn
            && calls'[k].targetDependsOn == calls[k].targetDependsOn && calls'[k].promise == calls[k].promise
            && Total(IsFor(calls[k].promise), out') == Total(IsFor(calls[k].promise), out)
    decreases |deps|
  {
    if deps != [] {
      var j := deps[0];
      if j >= |calls| {
        FireStuck(calls, out, deps[1..], p, v, src, k, i);
      } else {
        var c := Satisfied(calls[j], p, v);
        var more := if Ready(c) then [MsgOf(c, src)] else [];
        assert out + [] == out;
        assert j == k ==> c.args[i] == None && !Ready(c);
        TotalConcat(IsFor(calls[k].promise), out, more);
        FireStuck(calls[j := c], out + more, deps[1..], p, v, src, k, i);
      }
    }
  }

  /** Everything but the slots and the target stays, for every call. */
  lemma {:induction false} FireShape(calls: seq<Call>, out: seq<Msg>, deps: seq<nat>, p: nat, v: Value, src: Address, base: nat)
    requires forall k :: 0 <= k < |calls| ==> calls[k].promise < base
    requires forall i :: 0 <= i < |out| ==> out[i].promise < base
    ensures var (calls', out') := FireAll(calls, out, deps, p, v, src);
            && (forall k :: 0 <= k < |calls| ==>
                  calls'[k].promise == calls[k].promise && calls'[k].dependsOn == calls[k].dependsOn
                  && calls'[k].targetDependsOn == calls[k].targetDependsOn)
            && (forall i :: 0 <= i < |out'| ==> out'[i].promise < base)
    decreases |deps|
  {
    if deps != [] {
      var j := deps[0];
      if j >= |calls| {
        FireShape(calls, out, deps[1..], p, v, src, base);
      } else {
        var c := Satisfied(calls[j], p, v);
        FireShape(calls[j := c], if Ready(c) then out + [MsgOf(c, src)] else out, deps[1..], p, v, src, base);
      }
    }
  }

  lemma ResolveShaped(s: State, p: nat, values: seq<Value>, src: Address)
    requires Shaped(s) && CanMove(s, Answers(p, values, src))
    ensures Shaped(Resolve(s, p, values, src))
  {
    if p in s.promises {
      FireShape(s.calls, s.out, s.promises[p].dependents, p, values[0], src, s.base);
      var s' := Resolve(s, p, values, src);
      forall q | q in s'.promises
        ensures Pointers(s', q)
      {
        assert Pointers(s, q);
      }
    }
  }

  lemma SatisfiedFilled(c: Call, promises: map<nat, PromiseResult>, p: nat, values: seq<Value>)
    requires Filled(c, promises) && Waits(c, p) && p in promises && !promises[p].resolved
    requires values != [] && (c.targetDependsOn == Some(p) ==> values[0].EntityRef?)
    ensures !Ready(c)
    ensures Filled(Satisfied(c, p, values[0]), promises[p := promises[p].(results := values, resolved := true)])
  {
    var c', promises' := Satisfied(c, p, values[0]), promises[p := promises[p].(results := values, resolved := true)];
    if c.targetDependsOn != Some(p) {
      assert c.args[c.dependsOn[p]] == None;
    }
    forall i | 0 <= i < |c.args|
      ensures c'.args[i] == Filling(c.asked.args[i], promises')
    {
      if c.asked.args[i].PromiseRef? {
        assert Owns(c, i);
      }
    }
    assert forall i :: 0 <= i < |c.asked.args| && c.asked.args[i].PromiseRef? ==> Owns(c, i) && Owns(c', i);
  }

  lemma UntouchedFilled(c: Call, promises: map<nat, PromiseResult>, p: nat, r: PromiseResult)
    requires Filled(c, promises) && !Waits(c, p)
    ensures Filled(c, promises[p := r])
  {
    forall i | 0 <= i < |c.args|
      ensures c.args[i] == Filling(c.asked.args[i], promises[p := r])
    {
      if c.asked.args[i].PromiseRef? {
        assert Owns(c, i);
      }
    }
  }

  lemma ListedKept(c: Call, c': Call, promises: map<nat, PromiseResult>, p: nat, r: PromiseResult, k: nat)
    requires Listed(c, promises, k) && p in promises && r.dependents == promises[p].dependents
    requires c'.targetDependsOn == c.targetDependsOn && c'.dependsOn == c.dependsOn
    ensures Listed(c', promises[p := r], k)
  {
    hide Occurrences;
    assert forall q :: Waits(c', q) == Waits(c, q);
  }

  lemma SentKept(c: Call, out: seq<Msg>, out': seq<Msg>)
    requires Sent(c, out) && out <= out' && Total(IsFor(c.promise), out') == Total(IsFor(c.promise), out)
    ensures Sent(c, out')
  {
    hide Total;
    if Ready(c) {
      var src :| MsgOf(c, src) in out;
      assert MsgOf(c, src) in out';
    }
  }

  lemma ResolveKeeps(s: State, p: nat, values: seq<Value>, src: Address, k: nat)
    requires Shaped(s) && CanMove(s, Answers(p, values, src)) && k < |s.calls| && CallInv(s, k)
    ensures CallInv(Resolve(s, p, values, src), k)
  {
    if p in s.promises {
      var c, r := s.calls[k], s.promises[p].(results := values, resolved := true);
      assert forall j :: 0 <= j < |s.calls| && j != k ==> s.calls[j].promise != c.promise;
      hide Total, Pointers, Filled, FireAll, Occurrences, Ready;
      var (calls', out') := FireAll(s.calls, s.out, r.dependents, p, values[0], src);
      if Waits(c, p) {
        FireOnce(s.calls, s.out, r.dependents, p, values[0], src, k);
        SatisfiedFilled(c, s.promises, p, values);
        ListedKept(c, calls'[k], s.promises, p, r, k);
      } else {
        FireOthers(s.calls, s.out, r.dependents, p, values[0], src, k);
        UntouchedFilled(c, s.promises, p, r);
        ListedKept(c, c, s.promises, p, r, k);
        SentKept(c, s.out, out');
      }
    }
  }

  lemma ResolveStuck(s: State, p: nat, values: seq<Value>, src: Address, k: nat, i: nat)
    requires Shaped(s) && CanMove(s, Answers(p, values, src)) && k < |s.calls| && Stuck(s, k, i)
    ensures Stuck(Resolve(s, p, values, src), k, i)
  {
    if p in s.promises {
      assert forall j :: 0 <= j < |s.calls| && j != k ==> s.calls[j].promise != s.calls[k].promise;
      FireStuck(s.calls, s.out, s.promises[p].dependents, p, values[0], src, k, i);
    }
  }

  // ---- Sending, seen from one call ----

  function IsRef(p: nat): Value -> int {
    (v: Value) => if v == PromiseRef(p) then 1 else 0
  }

  /** The arguments so far: a gap for every promise, and its last slot remembered. */
  ghost predicate Copied(c: Call) {
    && |c.args| <= |c.asked.args|
    && (forall i :: 0 <= i < |c.args| ==> c.args[i] == (if c.asked.args[i].PromiseRef? then None else Some(c.asked.args[i])))
    && (forall i :: 0 <= i < |c.args| && c.asked.args[i].PromiseRef? ==>
          c.asked.args[i].id in c.dependsOn && c.dependsOn[c.asked.args[i].id] >= i)
    && (forall p :: p in c.dependsOn ==> c.dependsOn[p] < |c.args| && c.asked.args[c.dependsOn[p]] == PromiseRef(p))
  }

  lemma CopiedGap(c: Call)
    requires Copied(c) && |c.args| < |c.asked.args| && c.asked.args[|c.args|].PromiseRef?
    ensures Copied(c.(args := c.args + [None], dependsOn := c.dependsOn[c.asked.args[|c.args|].id := |c.args|]))
  {
  }

  lemma CopiedValue(c: Call)
    requires Copied(c) && |c.args| < |c.asked.args| && !c.asked.args[|c.args|].PromiseRef?
    ensures Copied(c.(args := c.args + [Some(c.asked.args[|c.args|])]))
  {
  }

  lemma {:induction false} CopyCall(args: seq<Value>, promises: map<nat, PromiseResult>, c: Call, k: nat)
    requires Copied(c) && args == c.asked.args[|c.args|..]
    ensures var c' := CopyArgs(args, promises, c, k).1;
            c' == c.(args := c'.args, dependsOn := c'.dependsOn) && |c'.args| == |c.asked.args| && Copied(c')
    decreases |args|
  {
    if args != [] {
      var n, v := |c.args|, c.asked.args[|c.args|];
      assert args[0] == v && args[1..] == c.asked.args[n + 1..];
      if v.PromiseRef? {
        CopiedGap(c);
        CopyCall(args[1..], AddDependent(promises, v.id, k), c.(args := c.args + [None], dependsOn := c.dependsOn[v.id := n]), k);
      } else {
        CopiedValue(c);
        CopyCall(args[1..], promises, c.(args := c.args + [Some(v)]), k);
      }
    }
  }

  /** A promise's dependents grow by the new call, once for each of its slots. */
  lemma {:induction false} CopyPromises(args: seq<Value>, promises: map<nat, PromiseResult>, c: Call, k: nat, q: nat)
    requires q in promises && forall i :: 0 <= i < |args| && args[i].PromiseRef? ==> args[i].id in promises
    ensures var promises' := CopyArgs(args, promises, c, k).0;
            && promises'.Keys == promises.Keys
            && promises'[q] == promises[q].(dependents := promises'[q].dependents)
            && (forall j :: Occurrences(promises'[q].dependents, j)
                            == Occurrences(promises[q].dependents, j) + (if j == k then Total(IsRef(q), args) else 0))
            && (forall j :: j in promises'[q].dependents ==> j in promises[q].dependents || (j == k && PromiseRef(q) in args))
            && (forall j :: j in promises[q].dependents ==> j in promises'[q].dependents)
    decreases |args|
  {
    if args != [] {
      match args[0]
      case PromiseRef(p) =>
        var more := AddDependent(promises, p, k);
        assert more.Keys == promises.Keys;
        CopyPromises(args[1..], more, c.(args := c.args + [None], dependsOn := c.dependsOn[p := |c.args|]), k, q);
        if p == q {
          AddedOnce(promises[q].dependents, k);
        }
      case v =>
        CopyPromises(args[1..], promises, c.(args := c.args + [Some(v)]), k, q);
    }
  }

  lemma AddedOnce(deps: seq<nat>, k: nat)
    ensures forall j :: Occurrences(deps + [k], j) == Occurrences(deps, j) + (if j == k then 1 else 0)
  {
    forall j
      ensures Occurrences(deps + [k], j) == Occurrences(deps, j) + (if j == k then 1 else 0)
    {
      TotalConcat(IsCall(j), deps, [k]);
      TotalNone(IsCall(j), [k]);
    }
  }

  /** What Send does to the promises there were. */
  lemma SendPromises(s: State, a: Ask, src: Address, q: nat)
    requires Shaped(s) && CanMove(s, Sends(a, src)) && q in s.promises
    ensures var s', k := Send(s, a, src), |s.calls|;
            var queued := KnownTarget(a.target, s.promises).None? || HasPromise(a.args);
            var asTarget := if KnownTarget(a.target, s.promises).None? && a.target.id == q then 1 else 0;
            && s'.promises.Keys == s.promises.Keys + {s.base}
            && s'.promises[q] == s.promises[q].(dependents := s'.promises[q].dependents)
            && (forall j :: Occurrences(s'.promises[q].dependents, j)
                            == Occurrences(s.promises[q].dependents, j)
                               + (if queued && j == k then asTarget + Total(IsRef(q), a.args) else 0))
            && (forall j :: j in s'.promises[q].dependents ==>
                  j in s.promises[q].dependents || (queued && j == k && (asTarget == 1 || PromiseRef(q) in a.args)))
            && (forall j :: j in s.promises[q].dependents ==> j in s'.promises[q].dependents)
  {
    var pid, k := s.base, |s.calls|;
    var started := s.promises[pid := UNRESOLVED];
    var target := KnownTarget(a.target, s.promises);
    if target.None? || HasPromise(a.args) {
      var c := Call(pid, target, if target.None? then Some(a.target.id) else None, a.name, [], map[], a);
      var promises := if target.None? then AddDependent(started, a.target.id, k) else started;
      if target.None? {
        AddedOnce(started[a.target.id].dependents, k);
      }
      CopyPromises(a.args, promises, c, k, q);
    }
  }

  /** Nothing depends on the promise just made. */
  lemma SendFresh(s: State, a: Ask, src: Address)
    requires Shaped(s) && CanMove(s, Sends(a, src))
    ensures s.base !in s.promises && s.base in Send(s, a, src).promises && Send(s, a, src).promises[s.base] == UNRESOLVED
  {
    var pid, k := s.base, |s.calls|;
    var started := s.promises[pid := UNRESOLVED];
    var target := KnownTarget(a.target, s.promises);
    if target.None? || HasPromise(a.args) {
      var c := Call(pid, target, if target.None? then Some(a.target.id) else None, a.name, [], map[], a);
      var promises := if target.None? then AddDependent(started, a.target.id, k) else started;
      CopyPromises(a.args, promises, c, k, pid);
      assert PromiseRef(pid) !in a.args;
      EmptyDependents(a.args, promises, c, k, pid);
    }
  }

  lemma EmptyDependents(args: seq<Value>, promises: map<nat, PromiseResult>, c: Call, k: nat, q: nat)
    requires q in promises && promises[q] == UNRESOLVED && PromiseRef(q) !in args
    requires forall i :: 0 <= i < |args| && args[i].PromiseRef? ==> args[i].id in promises
    ensures q in CopyArgs(args, promises, c, k).0 && CopyArgs(args, promises, c, k).0[q] == UNRESOLVED
  {
    CopyPromises(args, promises, c, k, q);
    var deps := CopyArgs(args, promises, c, k).0[q].dependents;
    assert forall i :: 0 <= i < |deps| ==> deps[i] in deps;
  }

  lemma SendShaped(s: State, a: Ask, src: Address)
    requires Shaped(s) && CanMove(s, Sends(a, src))
    ensures Shaped(Send(s, a, src)) && s.calls <= Send(s, a, src).calls && s.out <= Send(s, a, src).out
  {
    var s' := Send(s, a, src);
    SendFresh(s, a, src);
    SendCall(s, a, src);
    assert forall k :: 0 <= k < |s.calls| ==> s'.calls[k] == s.calls[k];
    forall q | q in s'.promises
      ensures PromiseOk(s'.promises[q]) && Pointers(s', q) && q < s'.base
    {
      if q in s.promises {
        SendPromises(s, a, src, q);
        assert Pointers(s, q) && PromiseOk(s.promises[q]);
        SendPointers(s, a, src, q);
      } else {
        SendKeys(s, a, src, q);
      }
    }
  }

  lemma SendKeys(s: State, a: Ask, src: Address, q: nat)
    requires Shaped(s) && CanMove(s, Sends(a, src)) && q in Send(s, a, src).promises
    ensures q in s.promises || q == s.base
  {
    var pid, k := s.base, |s.calls|;
    var started := s.promises[pid := UNRESOLVED];
    var target := KnownTarget(a.target, s.promises);
    if target.None? || HasPromise(a.args) {
      var c := Call(pid, target, if target.None? then Some(a.target.id) else None, a.name, [], map[], a);
      var promises := if target.None? then AddDependent(started, a.target.id, k) else started;
      CopyPromises(a.args, promises, c, k, pid);
    }
  }

  /** The call that Send queues, if it queues one. */
  lemma SendCall(s: State, a: Ask, src: Address)
    requires Shaped(s) && CanMove(s, Sends(a, src))
    ensures var s', target := Send(s, a, src), KnownTarget(a.target, s.promises);
            if target.None? || HasPromise(a.args) then
              && |s'.calls| == |s.calls| + 1 && s'.calls[..|s.calls|] == s.calls && s'.out == s.out
              && s'.base == s.base + 1
              && var c := s'.calls[|s.calls|];
                 && c.asked == a && c.name == a.name && c.promise == s.base && c.target == target
                 && c.targetDependsOn == (if target.None? then Some(a.target.id) else None)
                 && |c.args| == |a.args|
                 && (forall i :: 0 <= i < |a.args| ==> c.args[i] == (if a.args[i].PromiseRef? then None else Some(a.args[i])))
                 && (forall i :: 0 <= i < |a.args| && a.args[i].PromiseRef? ==>
                       a.args[i].id in c.dependsOn && c.dependsOn[a.args[i].id] >= i)
                 && (forall p :: p in c.dependsOn ==> c.dependsOn[p] < |a.args| && a.args[c.dependsOn[p]] == PromiseRef(p))
            else
              s'.calls == s.calls && s'.base == s.base + 1
              && s'.out == s.out + [Msg(target.value, src, a.name, a.args, s.base)]
  {
    var pid, k := s.base, |s.calls|;
    var started := s.promises[pid := UNRESOLVED];
    var target := KnownTarget(a.target, s.promises);
    if target.None? || HasPromise(a.args) {
      var c := Call(pid, target, if target.None? then Some(a.target.id) else None, a.name, [], map[], a);
      var promises := if target.None? then AddDependent(started, a.target.id, k) else started;
      CopyCall(a.args, promises, c, k);
    }
  }

  lemma SendPointers(s: State, a: Ask, src: Address, q: nat)
    requires Shaped(s) && CanMove(s, Sends(a, src)) && q in s.promises && q in Send(s, a, src).promises
    ensures Pointers(Send(s, a, src), q)
  {
    var s' := Send(s, a, src);
    SendPromises(s, a, src, q);
    SendCall(s, a, src);
    assert Pointers(s, q);
    forall i | 0 <= i < |s'.promises[q].dependents|
      ensures s'.promises[q].dependents[i] < |s'.calls| && Waits(s'.calls[s'.promises[q].dependents[i]], q)
    {
      var j := s'.promises[q].dependents[i];
      assert j in s'.promises[q].dependents;
      if j in s.promises[q].dependents {
        assert s'.calls[j] == s.calls[j];
      }
    }
  }

  /** Sending does not disturb the calls that are already waiting. */
  lemma SendKeeps(s: State, a: Ask, src: Address, k: nat)
    requires Shaped(s) && CanMove(s, Sends(a, src)) && k < |s.calls| && CallInv(s, k)
    ensures k < |Send(s, a, src).calls| && CallInv(Send(s, a, src), k)
  {
    var s', c := Send(s, a, src), s.calls[k];
    SendShaped(s, a, src);
    SendFresh(s, a, src);
    SendCall(s, a, src);
    hide Send, Occurrences, Total, CopyArgs;
    assert s'.calls[k] == c;
    forall q | q in s.promises
      ensures q in s'.promises && Result(s'.promises, q) == Result(s.promises, q)
      ensures Occurrences(s'.promises[q].dependents, k) == Occurrences(s.promises[q].dependents, k)
      ensures k in s'.promises[q].dependents ==> k in s.promises[q].dependents
    {
      SendPromises(s, a, src, q);
    }
    SendFilled(c, s.promises, s'.promises);
    forall p | p in s'.promises && !Waits(c, p)
      ensures k !in s'.promises[p].dependents
    {
      SendKeys(s, a, src, p);
    }
    SendSent(s, a, src, c);
  }

  lemma SendFilled(c: Call, promises: map<nat, PromiseResult>, promises': map<nat, PromiseResult>)
    requires Filled(c, promises) && (forall p :: Waits(c, p) ==> p in promises)
    requires forall q :: q in promises ==> Result(promises', q) == Result(promises, q)
    ensures Filled(c, promises')
  {
    forall i | 0 <= i < |c.args|
      ensures c.args[i] == Filling(c.asked.args[i], promises')
    {
      if c.asked.args[i].PromiseRef? {
        assert Owns(c, i) && Waits(c, c.asked.args[i].id);
      }
    }
    if c.targetDependsOn.Some? {
      assert Waits(c, c.targetDependsOn.value);
    }
  }

  lemma SendSent(s: State, a: Ask, src: Address, c: Call)
    requires Shaped(s) && CanMove(s, Sends(a, src)) && c.promise < s.base && Sent(c, s.out)
    ensures Sent(c, Send(s, a, src).out)
  {
    SendCall(s, a, src);
    hide Send;
    var target := KnownTarget(a.target, s.promises);
    if target.Some? && !HasPromise(a.args) {
      var q := Msg(target.value, src, a.name, a.args, s.base);
      TotalConcat(IsFor(c.promise), s.out, [q]);
      TotalNone(IsFor(c.promise), [q]);
      SentKept(c, s.out, s.out + [q]);
    }
  }

  lemma SendStuck(s: State, a: Ask, src: Address, k: nat, i: nat)
    requires Shaped(s) && CanMove(s, Sends(a, src)) && k < |s.calls| && Stuck(s, k, i)
    ensures k < |Send(s, a, src).calls| && Stuck(Send(s, a, src), k, i)
  {
    var c, s' := s.calls[k], Send(s, a, src);
    SendCall(s, a, src);
    assert s'.calls[k] == c;
    if c.asked.args[i].id in s.promises {
      SendPromises(s, a, src, c.asked.args[i].id);
    }
    hide Send, CopyArgs;
    assert !Ready(c);
    SendSent(s, a, src, c);
  }

  /** What the call has to meet when it is made: its promises are open and all different. */
  ghost predicate Clean(s: State, a: Ask) {
    forall i :: 0 <= i < |a.args| && a.args[i].PromiseRef? ==> CleanSlot(s, a, i)
  }

  ghost predicate CleanSlot(s: State, a: Ask, i: nat)
    requires i < |a.args| && a.args[i].PromiseRef?
  {
    && a.args[i].id in s.promises && !s.promises[a.args[i].id].resolved
    && (KnownTarget(a.target, s.promises).None? ==> a.target != a.args[i])
    && (forall j :: i < j < |a.args| ==> a.args[j] != a.args[i])
  }

  lemma SendMakes(s: State, a: Ask, src: Address)
    requires Shaped(s) && CanMove(s, Sends(a, src)) && (KnownTarget(a.target, s.promises).None? || HasPromise(a.args))
    requires Clean(s, a)
    ensures |Send(s, a, src).calls| == |s.calls| + 1 && CallInv(Send(s, a, src), |s.calls|)
  {
    var s', k := Send(s, a, src), |s.calls|;
    SendCall(s, a, src);
    SendFresh(s, a, src);
    var c := s'.calls[k];
    hide Send, CopyArgs, Total, Occurrences;
    MakesSeparate(s, a, c);
    forall q | q in s.promises
      ensures q in s'.promises && Result(s'.promises, q) == Result(s.promises, q)
      ensures Waits(c, q) ==> Occurrences(s'.promises[q].dependents, k) == 1
      ensures !Waits(c, q) ==> k !in s'.promises[q].dependents
    {
      MakesListed(s, a, src, q);
    }
    forall p | p in s'.promises && !Waits(c, p)
      ensures k !in s'.promises[p].dependents
    {
      SendKeys(s, a, src, p);
    }
    MakesFilled(s, a, src);
    MakesUnsent(s, c);
  }

  lemma MakesSeparate(s: State, a: Ask, c: Call)
    requires Clean(s, a) && c.asked == a
    requires KnownTarget(a.target, s.promises).None? ==> a.target.PromiseRef?
    requires c.targetDependsOn == (if KnownTarget(a.target, s.promises).None? then Some(a.target.id) else None)
    requires forall i :: 0 <= i < |a.args| && a.args[i].PromiseRef? ==>
               a.args[i].id in c.dependsOn && c.dependsOn[a.args[i].id] >= i
    requires forall p :: p in c.dependsOn ==> c.dependsOn[p] < |a.args| && a.args[c.dependsOn[p]] == PromiseRef(p)
    ensures Separate(c)
  {
    forall i | 0 <= i < |a.args| && a.args[i].PromiseRef?
      ensures Owns(c, i)
    {
      assert CleanSlot(s, a, i);
    }
  }

  lemma MakesListed(s: State, a: Ask, src: Address, q: nat)
    requires Shaped(s) && CanMove(s, Sends(a, src)) && (KnownTarget(a.target, s.promises).None? || HasPromise(a.args))
    requires Clean(s, a) && q in s.promises
    ensures var s', k := Send(s, a, src), |s.calls|;
            && q in s'.promises && Result(s'.promises, q) == Result(s.promises, q) && k < |s'.calls|
            && (Waits(s'.calls[k], q) ==> Occurrences(s'.promises[q].dependents, k) == 1)
            && (!Waits(s'.calls[k], q) ==> k !in s'.promises[q].dependents)
  {
    SendCall(s, a, src);
    SendPromises(s, a, src, q);
    assert Pointers(s, q);
    hide Send, CopyArgs, Total, Shaped;
    NoneYet(s.promises[q].dependents, |s.calls|);
    RefCount(s, a, q);
  }

  lemma NoneYet(deps: seq<nat>, k: nat)
    requires forall i :: 0 <= i < |deps| ==> deps[i] < k
    ensures Occurrences(deps, k) == 0 && k !in deps
  {
    TotalZero(IsCall(k), deps);
  }

  /** Different promises: at most one slot each, and none for the target's. */
  lemma RefCount(s: State, a: Ask, q: nat)
    requires Clean(s, a)
    ensures Total(IsRef(q), a.args) == (if PromiseRef(q) in a.args then 1 else 0)
    ensures PromiseRef(q) in a.args && KnownTarget(a.target, s.promises).None? ==> a.target != PromiseRef(q)
  {
    forall i | 0 <= i < |a.args| && a.args[i] == PromiseRef(q)
      ensures forall j :: i < j < |a.args| ==> a.args[j] != PromiseRef(q)
      ensures KnownTarget(a.target, s.promises).None? ==> a.target != PromiseRef(q)
    {
      assert CleanSlot(s, a, i);
    }
    CountOnce(a.args, q);
  }

  lemma {:induction false} CountOnce(args: seq<Value>, q: nat)
    requires forall i, j :: 0 <= i < j < |args| && args[i] == PromiseRef(q) ==> args[j] != PromiseRef(q)
    ensures Total(IsRef(q), args) == (if PromiseRef(q) in args then 1 else 0)
  {
    if args != [] {
      CountOnce(args[1..], q);
      assert args == [args[0]] + args[1..];
    }
  }

  lemma MakesFilled(s: State, a: Ask, src: Address)
    requires Shaped(s) && CanMove(s, Sends(a, src)) && (KnownTarget(a.target, s.promises).None? || HasPromise(a.args))
    requires Clean(s, a)
    ensures |Send(s, a, src).calls| == |s.calls| + 1 && Filled(Send(s, a, src).calls[|s.calls|], Send(s, a, src).promises)
  {
    var s', k := Send(s, a, src), |s.calls|;
    SendCall(s, a, src);
    var c := s'.calls[k];
    hide Send, CopyArgs, Total, Occurrences, Shaped;
    MakesSeparate(s, a, c);
    forall i | 0 <= i < |c.args|
      ensures c.args[i] == Filling(a.args[i], s'.promises)
    {
      if a.args[i].PromiseRef? {
        assert CleanSlot(s, a, i);
        MakesListed(s, a, src, a.args[i].id);
      }
    }
    if c.targetDependsOn.Some? {
      MakesListed(s, a, src, a.target.id);
    }
  }

  /** A call that waits for something is not sent yet. */
  lemma MakesUnsent(s: State, c: Call)
    requires Shaped(s) && c.promise == s.base
    requires c.target.None? || exists i :: 0 <= i < |c.args| && c.args[i] == None
    ensures Sent(c, s.out)
  {
    TotalZero(IsFor(c.promise), s.out);
  }

  /** A call with two slots, or a slot and the target, on one promise, or with a slot on a promise that was
      resolved already, can never be sent. */
  lemma SendSticks(s: State, a: Ask, src: Address, i: nat)
    requires Shaped(s) && CanMove(s, Sends(a, src)) && i < |a.args| && a.args[i].PromiseRef? && !CleanSlot(s, a, i)
    ensures |Send(s, a, src).calls| == |s.calls| + 1 && Stuck(Send(s, a, src), |s.calls|, i)
  {
    var s', k := Send(s, a, src), |s.calls|;
    assert HasPromise(a.args);
    SendCall(s, a, src);
    SendPromises(s, a, src, a.args[i].id);
    hide Send, CopyArgs;
    TotalZero(IsFor(s.base), s.out);
  }

  // ---- Whole runs ----

  ghost predicate Init(s: State) {
    s == State(map[], 0, [], [])
  }

  ghost predicate Execution(states: seq<State>, moves: seq<Move>) {
    && |states| == |moves| + 1 && Init(states[0])
    && (forall k :: 0 <= k < |moves| ==> Follows(states[k], moves[k], states[k + 1]))
  }

  ghost predicate Follows(s: State, m: Move, s': State) {
    CanMove(s, m) && s' == Step(s, m)
  }

  lemma {:induction false} AlwaysShaped(states: seq<State>, moves: seq<Move>, n: nat)
    requires Execution(states, moves) && n < |states|
    ensures Shaped(states[n])
  {
    hide Shaped, Send, Resolve;
    if n == 0 {
      InitShaped(states[0]);
    } else {
      AlwaysShaped(states, moves, n - 1);
      assert Follows(states[n - 1], moves[n - 1], states[n]);
      match moves[n - 1]
      case Sends(a, src) => SendShaped(states[n - 1], a, src);
      case Answers(p, values, src) => ResolveShaped(states[n - 1], p, values, src);
    }
  }

  lemma InitShaped(s: State)
    requires Init(s)
    ensures Shaped(s)
  {
  }

  lemma {:induction false} CallKept(states: seq<State>, moves: seq<Move>, j: nat, n: nat, k: nat)
    requires Execution(states, moves) && j <= n < |states| && k < |states[j].calls| && CallInv(states[j], k)
    ensures k < |states[n].calls| && CallInv(states[n], k) && SameCall(states[n].calls[k], states[j].calls[k])
    decreases n
  {
    hide Shaped, CallInv;
    if j < n {
      CallKept(states, moves, j, n - 1, k);
      AlwaysShaped(states, moves, n - 1);
      assert Follows(states[n - 1], moves[n - 1], states[n]);
      match moves[n - 1]
      case Sends(a, src) =>
        SendKeeps(states[n - 1], a, src, k);
        SendShaped(states[n - 1], a, src);
      case Answers(p, values, src) =>
        ResolveKeeps(states[n - 1], p, values, src, k);
        ResolveSame(states[n - 1], p, values, src, k);
    }
  }

  predicate SameCall(c: Call, d: Call) {
    && c.promise == d.promise && c.asked == d.asked && c.targetDependsOn == d.targetDependsOn && c.name == d.name
    && (c.targetDependsOn.None? ==> c.target == d.target)
  }

  lemma {:induction false} FireSame(calls: seq<Call>, out: seq<Msg>, deps: seq<nat>, p: nat, v: Value, src: Address, k: nat)
    requires k < |calls|
    ensures SameCall(FireAll(calls, out, deps, p, v, src).0[k], calls[k])
    decreases |deps|
  {
    if deps != [] {
      var j := deps[0];
      if j >= |calls| {
        FireSame(calls, out, deps[1..], p, v, src, k);
      } else {
        var c := Satisfied(calls[j], p, v);
        FireSame(calls[j := c], if Ready(c) then out + [MsgOf(c, src)] else out, deps[1..], p, v, src, k);
      }
    }
  }

  lemma ResolveSame(s: State, p: nat, values: seq<Value>, src: Address, k: nat)
    requires values != [] && k < |s.calls|
    ensures SameCall(Resolve(s, p, values, src).calls[k], s.calls[k])
  {
    if p in s.promises {
      FireSame(s.calls, s.out, s.promises[p].dependents, p, values[0], src, k);
    }
  }

  lemma {:induction false} StuckKept(states: seq<State>, moves: seq<Move>, j: nat, n: nat, k: nat, i: nat)
    requires Execution(states, moves) && j <= n < |states| && k < |states[j].calls| && Stuck(states[j], k, i)
    ensures k < |states[n].calls| && Stuck(states[n], k, i) && states[n].calls[k].promise == states[j].calls[k].promise
    decreases n
  {
    hide Shaped, Stuck;
    if j < n {
      StuckKept(states, moves, j, n - 1, k, i);
      AlwaysShaped(states, moves, n - 1);
      assert Follows(states[n - 1], moves[n - 1], states[n]);
      match moves[n - 1]
      case Sends(a, src) =>
        SendStuck(states[n - 1], a, src, k, i);
        SendShaped(states[n - 1], a, src);
      case Answers(p, values, src) =>
        ResolveStuck(states[n - 1], p, values, src, k, i);
        ResolveSame(states[n - 1], p, values, src, k);
    }
  }

  /** In step j a call is queued, because its target or an argument is a promise. */
  ghost predicate Queued(states: seq<State>, moves: seq<Move>, j: nat) {
    && j < |moves| == |states| - 1 && moves[j].Sends?
    && (KnownTarget(moves[j].a.target, states[j].promises).None? || HasPromise(moves[j].a.args))
  }

  /** Every promise the call was made with has its result, and the target's is an entity. */
  ghost predicate AllResolved(states: seq<State>, moves: seq<Move>, j: nat, n: nat)
    requires Queued(states, moves, j) && n < |states|
  {
    var a, promises := moves[j].a, states[n].promises;
    && (forall i :: 0 <= i < |a.args| && a.args[i].PromiseRef? ==> Result(promises, a.args[i].id).Some?)
    && (KnownTarget(a.target, states[j].promises).None? && a.target.PromiseRef? ==>
          Result(promises, a.target.id).Some? && Result(promises, a.target.id).value.EntityRef?)
  }

  /** The queued call as it is later in the run. */
  lemma QueuedCall(states: seq<State>, moves: seq<Move>, j: nat, n: nat) returns (c: Call)
    requires Execution(states, moves) && Queued(states, moves, j) && j < n < |states| && Clean(states[j], moves[j].a)
    ensures Filled(c, states[n].promises) && Sent(c, states[n].out)
    ensures |states[j].calls| < |states[n].calls| && c == states[n].calls[|states[j].calls|]
    ensures c.asked == moves[j].a && c.name == moves[j].a.name && c.promise == states[j].base
    ensures var a := moves[j].a;
            if KnownTarget(a.target, states[j].promises).None? then a.target.PromiseRef? && c.targetDependsOn == Some(a.target.id)
            else c.target == KnownTarget(a.target, states[j].promises) && c.targetDependsOn == None
  {
    var s, a, k := states[j], moves[j].a, |states[j].calls|;
    AlwaysShaped(states, moves, j);
    assert Follows(states[j], moves[j], states[j + 1]);
    hide Execution, Shaped, Clean, Filled, Listed, Sent, Total, Ready;
    SendMakes(s, a, moves[j].src);
    SendCall(s, a, moves[j].src);
    hide Send, Resolve;
    CallKept(states, moves, j + 1, n, k);
    c := states[n].calls[k];
  }

  /** Step r resolves the last of the promises of the call queued in step j. */
  ghost predicate ResolvesLast(states: seq<State>, moves: seq<Move>, j: nat, r: nat)
    requires Queued(states, moves, j)
  {
    && j < r < |moves| && moves[r].Answers?
    && !AllResolved(states, moves, j, r) && AllResolved(states, moves, j, r + 1)
  }

  /** A queued call whose promises were open and all different is sent exactly once, in the step that
      resolves the last of them and not before, with each promise's result in its place, in the name of
      the entity that is run in that step. */
  lemma SentExactlyOnce(states: seq<State>, moves: seq<Move>, j: nat, n: nat)
    requires Execution(states, moves) && Queued(states, moves, j) && j < n < |states| && Clean(states[j], moves[j].a)
    ensures Total(IsFor(states[j].base), states[n].out) == (if AllResolved(states, moves, j, n) then 1 else 0)
    ensures AllResolved(states, moves, j, n) ==>
              exists m, r: nat :: m in states[n].out && m.promise == states[j].base && r < n && ResolvesLast(states, moves, j, r)
                             && Delivers(m, moves[j].a, moves[r].src, states[j].promises, states[n].promises)
  {
    var c := QueuedCall(states, moves, j, n);
    hide Execution, Total, Clean;
    ReadyWhenResolved(c, states[n].promises);
    if Ready(c) {
      var src :| MsgOf(c, src) in states[n].out;
      MsgDelivers(c, src, states[j].promises, states[n].promises);
      var m := MsgOf(c, src);
      var r := WhoSent(states, moves, j, n, m);
      assert Delivers(m, moves[j].a, moves[r].src, states[j].promises, states[n].promises);
    }
  }

  /** The message for a queued call stems from the step that resolved the last promise, and names the
      source of that step. */
  lemma WhoSent(states: seq<State>, moves: seq<Move>, j: nat, n: nat, m: Msg) returns (r: nat)
    requires Execution(states, moves) && Queued(states, moves, j) && j < n < |states| && Clean(states[j], moves[j].a)
    requires AllResolved(states, moves, j, n) && m in states[n].out && m.promise == states[j].base
    ensures r < n && ResolvesLast(states, moves, j, r) && m.src == moves[r].src
    decreases n
  {
    hide AllResolved, Execution, Queued, Clean, ResolvesLast;
    NotAtOnce(states, moves, j);
    if AllResolved(states, moves, j, n - 1) {
      AlreadySent(states, moves, j, n - 1, m);
      r := WhoSent(states, moves, j, n - 1, m);
    } else {
      r := n - 1;
      SentNow(states, moves, j, r, m);
    }
  }

  lemma QueuedOut(states: seq<State>, moves: seq<Move>, j: nat, n: nat)
    requires Execution(states, moves) && Queued(states, moves, j) && j < n < |states| && Clean(states[j], moves[j].a)
    ensures |states[j].calls| < |states[n].calls|
    ensures Ready(states[n].calls[|states[j].calls|]) <==> AllResolved(states, moves, j, n)
    ensures Total(IsFor(states[j].base), states[n].out) == (if AllResolved(states, moves, j, n) then 1 else 0)
  {
    var c := QueuedCall(states, moves, j, n);
    NeededAll(states, moves, j, n, c);
  }

  lemma AlreadySent(states: seq<State>, moves: seq<Move>, j: nat, n: nat, m: Msg)
    requires Execution(states, moves) && Queued(states, moves, j) && j < n < |moves| && Clean(states[j], moves[j].a)
    requires AllResolved(states, moves, j, n) && AllResolved(states, moves, j, n + 1)
    requires m in states[n + 1].out && m.promise == states[j].base
    ensures m in states[n].out
  {
    assert |moves| == |states| - 1;
    hide Execution, AllResolved, Queued, Clean, Ready, Total;
    QueuedOut(states, moves, j, n);
    QueuedOut(states, moves, j, n + 1);
    OutGrows(states, moves, n);
    EarlierMessage(states[n].out, states[n + 1].out, m, m.promise);
  }

  lemma SentNow(states: seq<State>, moves: seq<Move>, j: nat, r: nat, m: Msg)
    requires Execution(states, moves) && Queued(states, moves, j) && j < r < |moves| && Clean(states[j], moves[j].a)
    requires !AllResolved(states, moves, j, r) && AllResolved(states, moves, j, r + 1)
    requires m in states[r + 1].out && m.promise == states[j].base
    ensures ResolvesLast(states, moves, j, r) && m.src == moves[r].src
  {
    assert |moves| == |states| - 1;
    hide Execution, AllResolved, Queued, Clean, Ready, Total;
    QueuedOut(states, moves, j, r);
    QueuedOut(states, moves, j, r + 1);
    OutGrows(states, moves, r);
    LaterMessage(states[r].out, states[r + 1].out, m);
  }

  lemma NeededAll(states: seq<State>, moves: seq<Move>, j: nat, n: nat, c: Call)
    requires Queued(states, moves, j) && n < |states| && Filled(c, states[n].promises) && c.asked == moves[j].a
    requires if KnownTarget(moves[j].a.target, states[j].promises).None?
             then moves[j].a.target.PromiseRef? && c.targetDependsOn == Some(moves[j].a.target.id) else c.targetDependsOn == None
    ensures Ready(c) <==> AllResolved(states, moves, j, n)
  {
    ReadyWhenResolved(c, states[n].promises);
  }

  /** Queuing a call resolves nothing. */
  lemma NotAtOnce(states: seq<State>, moves: seq<Move>, j: nat)
    requires Execution(states, moves) && Queued(states, moves, j) && Clean(states[j], moves[j].a)
    ensures |moves| == |states| - 1 && !AllResolved(states, moves, j, j + 1)
  {
    AlwaysShaped(states, moves, j);
    assert Follows(states[j], moves[j], states[j + 1]);
    SendCall(states[j], moves[j].a, moves[j].src);
    var c := QueuedCall(states, moves, j, j + 1);
    NeededAll(states, moves, j, j + 1, c);
    hide Send, AllResolved, Execution, Clean;
    if HasPromise(moves[j].a.args) {
      var i :| 0 <= i < |moves[j].a.args| && moves[j].a.args[i].PromiseRef?;
      assert c.args[i] == None;
    }
  }

  /** All that was added names this source. */
  ghost predicate Named(before: seq<Msg>, after: seq<Msg>, src: Address) {
    before <= after && forall i :: |before| <= i < |after| ==> after[i].src == src
  }

  lemma {:induction false} FireNames(calls: seq<Call>, out: seq<Msg>, deps: seq<nat>, p: nat, v: Value, src: Address)
    ensures Named(out, FireAll(calls, out, deps, p, v, src).1, src)
    decreases |deps|
  {
    if deps != [] {
      var k := deps[0];
      if k >= |calls| {
        FireNames(calls, out, deps[1..], p, v, src);
      } else {
        var c := Satisfied(calls[k], p, v);
        FireNames(calls[k := c], if Ready(c) then out + [MsgOf(c, src)] else out, deps[1..], p, v, src);
      }
    }
  }

  /** Messages are only added, by a response in the name of the entity that is run, and a send leaves the
      calls waiting as they are. */
  lemma OutGrows(states: seq<State>, moves: seq<Move>, r: nat)
    requires Execution(states, moves) && r < |moves|
    ensures states[r].out <= states[r + 1].out
    ensures moves[r].Answers? ==> Named(states[r].out, states[r + 1].out, moves[r].src)
    ensures moves[r].Sends? ==> forall k :: 0 <= k < |states[r].calls| ==>
              k < |states[r + 1].calls| && states[r + 1].calls[k] == states[r].calls[k]
  {
    AlwaysShaped(states, moves, r);
    assert Follows(states[r], moves[r], states[r + 1]);
    match moves[r]
    case Sends(a, src) =>
      SendCall(states[r], a, src);
    case Answers(p, values, src) =>
      if p in states[r].promises {
        FireNames(states[r].calls, states[r].out, states[r].promises[p].dependents, p, values[0], src);
      }
  }

  /** Where there was one message for a promise and still is, it is the same. */
  lemma EarlierMessage(before: seq<Msg>, after: seq<Msg>, m: Msg, p: nat)
    requires before <= after && m in after && m.promise == p
    requires Total(IsFor(p), before) == 1 && Total(IsFor(p), after) == 1
    ensures m in before
  {
    assert after == before + after[|before|..];
    TotalConcat(IsFor(p), before, after[|before|..]);
    if m in after[|before|..] {
      var i: nat :| i < |after[|before|..]| && after[|before|..][i] == m;
      TotalCovers(IsFor(p), after[|before|..], i);
      assert false;
    }
  }

  lemma LaterMessage(before: seq<Msg>, after: seq<Msg>, m: Msg)
    requires before <= after && m in after && Total(IsFor(m.promise), before) == 0
    ensures exists i :: |before| <= i < |after| && after[i] == m
  {
    var i: nat :| i < |after| && after[i] == m;
    if i < |before| {
      TotalCovers(IsFor(m.promise), before, i);
      assert false;
    }
  }

  /** The message is what was asked for, with every promise replaced by its result, and names its source. */
  ghost predicate Delivers(m: Msg, a: Ask, src: Address, before: map<nat, PromiseResult>, promises: map<nat, PromiseResult>) {
    && m.name == a.name && m.src == src && |m.values| == |a.args|
    && (forall i :: 0 <= i < |a.args| ==> Filling(a.args[i], promises) == Some(m.values[i]))
    && (if KnownTarget(a.target, before).Some? then KnownTarget(a.target, before) == Some(m.target)
        else a.target.PromiseRef? && Result(promises, a.target.id) == Some(EntityRef(m.target)))
  }

  lemma MsgDelivers(c: Call, src: Address, before: map<nat, PromiseResult>, promises: map<nat, PromiseResult>)
    requires Filled(c, promises) && Ready(c) && c.name == c.asked.name
    requires if KnownTarget(c.asked.target, before).Some? then c.target == KnownTarget(c.asked.target, before)
             else c.asked.target.PromiseRef? && c.targetDependsOn == Some(c.asked.target.id)
    ensures Delivers(MsgOf(c, src), c.asked, MsgOf(c, src).src, before, promises)
  {
  }

  lemma ReadyWhenResolved(c: Call, promises: map<nat, PromiseResult>)
    requires Filled(c, promises)
    ensures Ready(c) <==>
            && (forall i :: 0 <= i < |c.asked.args| && c.asked.args[i].PromiseRef? ==> Result(promises, c.asked.args[i].id).Some?)
            && (c.targetDependsOn.Some? ==>
                  Result(promises, c.targetDependsOn.value).Some? && Result(promises, c.targetDependsOn.value).value.EntityRef?)
  {
    if Ready(c) {
      forall i | 0 <= i < |c.asked.args| && c.asked.args[i].PromiseRef?
        ensures Result(promises, c.asked.args[i].id).Some?
      {
        assert c.args[i] == Filling(c.asked.args[i], promises) && c.args[i].Some?;
      }
    } else if c.target.Some? {
      var i :| 0 <= i < |c.args| && c.args[i].None?;
      assert c.args[i] == Filling(c.asked.args[i], promises);
    }
  }

  /** Once all its promises are resolved, a queued call has been sent if and only if, when it was made,
      they were open and all different; otherwise it never is. */
  lemma SentIffClean(states: seq<State>, moves: seq<Move>, j: nat, n: nat)
    requires Execution(states, moves) && Queued(states, moves, j) && j < n < |states| && AllResolved(states, moves, j, n)
    ensures Total(IsFor(states[j].base), states[n].out) == (if Clean(states[j], moves[j].a) then 1 else 0)
  {
    var s, a, k := states[j], moves[j].a, |states[j].calls|;
    if Clean(s, a) {
      SentExactlyOnce(states, moves, j, n);
    } else {
      AlwaysShaped(states, moves, j);
      assert Follows(states[j], moves[j], states[j + 1]);
      var i :| 0 <= i < |a.args| && a.args[i].PromiseRef? && !CleanSlot(s, a, i);
      SendSticks(s, a, moves[j].src, i);
      SendCall(s, a, moves[j].src);
      StuckKept(states, moves, j + 1, n, k, i);
    }
  }

  /** A call with nothing to wait for is sent in the step it is made, as it is, in the name of its maker. */
  lemma SentAtOnce(states: seq<State>, moves: seq<Move>, j: nat)
    requires Execution(states, moves) && j < |moves| && moves[j].Sends? && !Queued(states, moves, j)
    ensures exists m :: states[j + 1].out == states[j].out + [m] && m.promise == states[j].base
                        && Delivers(m, moves[j].a, moves[j].src, states[j].promises, states[j].promises)
  {
    AlwaysShaped(states, moves, j);
    assert Follows(states[j], moves[j], states[j + 1]);
    SendCall(states[j], moves[j].a, moves[j].src);
    var m := states[j + 1].out[|states[j].out|];
    assert Delivers(m, moves[j].a, moves[j].src, states[j].promises, states[j].promises);
  }

  // ---- Calls that get lost ----

  /** A run in which step j queues a call whose promises all get their results, and which is not sent. */
  ghost predicate Loses(states: seq<State>, moves: seq<Move>, j: nat) {
    && Execution(states, moves) && Queued(states, moves, j) && AllResolved(states, moves, j, |states| - 1)
    && !Clean(states[j], moves[j].a)
    && Total(IsFor(states[j].base), states[|states| - 1].out) == 0
  }

  const START := State(map[], 0, [], [])

  /** The first message of a run, and promise 0 with it. */
  function Opening(there: Address, name: Text): Move {
    Sends(Ask(EntityRef(there), name, []), there)
  }

  function Opened(there: Address, name: Text): State {
    State(map[0 := UNRESOLVED], 1, [], [Msg(there, there, name, [], 0)])
  }

  lemma Opens(there: Address, name: Text)
    ensures Follows(START, Opening(there, name), Opened(there, name)) && Shaped(Opened(there, name))
  {
    InitShaped(START);
    SendShaped(START, Ask(EntityRef(there), name, []), there);
  }

  lemma StuckLoses(states: seq<State>, moves: seq<Move>, j: nat, i: nat)
    requires Execution(states, moves) && Queued(states, moves, j) && AllResolved(states, moves, j, |states| - 1)
    requires i < |moves[j].a.args| && moves[j].a.args[i].PromiseRef? && !CleanSlot(states[j], moves[j].a, i)
    ensures Loses(states, moves, j)
  {
    SentIffClean(states, moves, j, |states| - 1);
  }

  /** Promise 0 is named by two arguments, or by the target and an argument, and is then resolved. */
  lemma OpenLost(there: Address, name: Text, a: Ask, v: Value) returns (states: seq<State>)
    requires a.args != [] && forall i :: 0 <= i < |a.args| ==> a.args[i] == PromiseRef(0)
    requires (a.target.EntityRef? && |a.args| > 1) || a.target == PromiseRef(0)
    requires !v.PromiseRef? && (a.target.PromiseRef? ==> v.EntityRef?)
    ensures Loses(states, [Opening(there, name), Sends(a, there), Answers(0, [v], there)], 1)
  {
    Opens(there, name);
    var s1 := Opened(there, name);
    assert a.args[0].PromiseRef?;
    SendCall(s1, a, there);
    SendPromises(s1, a, there, 0);
    var s2 := Send(s1, a, there);
    hide Send, FireAll, Shaped;
    var s3 := Resolve(s2, 0, [v], there);
    states := [START, s1, s2, s3];
    var moves := [Opening(there, name), Sends(a, there), Answers(0, [v], there)];
    assert Follows(START, moves[0], s1) && Follows(s1, moves[1], s2) && Follows(s2, moves[2], s3);
    assert |a.args| > 1 ==> a.args[1] == a.args[0];
    StuckLoses(states, moves, 1, 0);
  }

  /** A call that names one promise in two arguments: only the later slot is ever filled. */
  lemma NamedTwiceIsLost(there: Address, first: Text, second: Text, n: int)
    ensures exists states ::
              Loses(states, [Opening(there, first), Sends(Ask(EntityRef(there), second, [PromiseRef(0), PromiseRef(0)]), there),
                             Answers(0, [Datum(n)], there)], 1)
  {
    var states := OpenLost(there, first, Ask(EntityRef(there), second, [PromiseRef(0), PromiseRef(0)]), Datum(n));
  }

  /** A call whose target promise is an argument too: the slot is never filled. */
  lemma TargetNamedIsLost(there: Address, first: Text, second: Text)
    ensures exists states ::
              Loses(states, [Opening(there, first), Sends(Ask(PromiseRef(0), second, [PromiseRef(0)]), there),
                             Answers(0, [EntityRef(there)], there)], 1)
  {
    var states := OpenLost(there, first, Ask(PromiseRef(0), second, [PromiseRef(0)]), EntityRef(there));
  }

  /** A call that names a promise resolved before: nothing resolves it again. */
  lemma NamedLateIsLost(there: Address, first: Text, second: Text, n: int)
    ensures exists states ::
              Loses(states, [Opening(there, first), Answers(0, [Datum(n)], there),
                             Sends(Ask(EntityRef(there), second, [PromiseRef(0)]), there)], 2)
  {
    Opens(there, first);
    var a := Ask(EntityRef(there), second, [PromiseRef(0)]);
    var s1 := Opened(there, first);
    var s2 := Resolve(s1, 0, [Datum(n)], there);
    assert a.args[0].PromiseRef?;
    ResolveShaped(s1, 0, [Datum(n)], there);
    SendPromises(s2, a, there, 0);
    hide Send, FireAll, Shaped;
    var s3 := Send(s2, a, there);
    var states, moves := [START, s1, s2, s3], [Opening(there, first), Answers(0, [Datum(n)], there), Sends(a, there)];
    assert Follows(START, moves[0], s1) && Follows(s1, moves[1], s2) && Follows(s2, moves[2], s3);
    StuckLoses(states, moves, 2, 0);
  }

  // ---- In which order calls are sent ----

  /** Listed in the order in which they were made. */
  predicate Ascending(deps: seq<nat>) {
    forall i, j :: 0 <= i < j < |deps| ==> deps[i] <= deps[j]
  }

  ghost predicate UpTo(promises: map<nat, PromiseResult>, k: nat) {
    forall p :: p in promises ==> Ascending(promises[p].dependents) && forall i :: 0 <= i < |promises[p].dependents| ==> promises[p].dependents[i] <= k
  }

  ghost predicate Numbered(calls: seq<Call>) {
    forall j, k :: 0 <= j < k < |calls| ==> calls[j].promise < calls[k].promise
  }

  ghost predicate InTurn(s: State) {
    Numbered(s.calls) && forall p :: p in s.promises ==> Ascending(s.promises[p].dependents)
  }

  lemma DependentUpTo(promises: map<nat, PromiseResult>, p: nat, k: nat)
    requires UpTo(promises, k)
    ensures UpTo(AddDependent(promises, p, k), k)
  {
  }

  lemma {:induction false} CopyUpTo(args: seq<Value>, promises: map<nat, PromiseResult>, c: Call, k: nat)
    requires UpTo(promises, k)
    ensures UpTo(CopyArgs(args, promises, c, k).0, k)
    decreases |args|
  {
    hide UpTo, AddDependent;
    if args != [] {
      match args[0]
      case PromiseRef(p) =>
        DependentUpTo(promises, p, k);
        CopyUpTo(args[1..], AddDependent(promises, p, k),
                 c.(args := c.args + [None], dependsOn := c.dependsOn[p := |c.args|]), k);
      case v => CopyUpTo(args[1..], promises, c.(args := c.args + [Some(v)]), k);
    }
  }

  lemma SendUpTo(s: State, a: Ask, src: Address)
    requires CanAsk(s, a) && UpTo(s.promises, |s.calls|)
    ensures UpTo(Send(s, a, src).promises, |s.calls|)
  {
    var pid, k := s.base, |s.calls|;
    var started := s.promises[pid := UNRESOLVED];
    assert UpTo(started, k);
    var target := KnownTarget(a.target, s.promises);
    hide UpTo;
    if target.None? || HasPromise(a.args) {
      var c := Call(pid, target, if target.None? then Some(a.target.id) else None, a.name, [], map[], a);
      var promises := if target.None? then AddDependent(started, a.target.id, k) else started;
      if target.None? {
        DependentUpTo(started, a.target.id, k);
      }
      CopyUpTo(a.args, promises, c, k);
    }
  }

  lemma SendInTurn(s: State, a: Ask, src: Address)
    requires Shaped(s) && InTurn(s) && CanMove(s, Sends(a, src))
    ensures InTurn(Send(s, a, src))
  {
    assert UpTo(s.promises, |s.calls|) by {
      forall p | p in s.promises
        ensures Ascending(s.promises[p].dependents)
        ensures forall i :: 0 <= i < |s.promises[p].dependents| ==> s.promises[p].dependents[i] <= |s.calls|
      {
        assert Pointers(s, p);
      }
    }
    SendUpTo(s, a, src);
    SendCall(s, a, src);
    var s' := Send(s, a, src);
    hide Send;
    assert |s'.calls| > |s.calls| ==> s'.calls == s.calls + [s'.calls[|s.calls|]];
  }

  /** What firing sends: no message for an earlier call behind one for a later call. */
  ghost predicate SentInTurn(out: seq<Msg>, out': seq<Msg>, from: nat) {
    && out <= out'
    && (forall i :: |out| <= i < |out'| ==> from <= out'[i].promise)
    && (forall i, j :: |out| <= i < j < |out'| ==> out'[i].promise <= out'[j].promise)
  }

  lemma {:induction false} FireInTurn(calls: seq<Call>, out: seq<Msg>, deps: seq<nat>, p: nat, v: Value, src: Address, from: nat)
    requires Ascending(deps) && Numbered(calls) && forall i :: 0 <= i < |deps| ==> deps[i] < |calls|
    requires deps != [] ==> from <= calls[deps[0]].promise
    ensures var (calls', out') := FireAll(calls, out, deps, p, v, src);
            Numbered(calls') && SentInTurn(out, out', from)
    decreases |deps|
  {
    if deps != [] {
      var k := deps[0];
      var c := Satisfied(calls[k], p, v);
      var calls1, out1 := calls[k := c], if Ready(c) then out + [MsgOf(c, src)] else out;
      assert c.promise == calls[k].promise;
      assert |deps| > 1 ==> k <= deps[1] && deps[1..][0] == deps[1];
      assert Ascending(deps[1..]) && Numbered(calls1);
      FireInTurn(calls1, out1, deps[1..], p, v, src, c.promise);
      FirstInTurn(out, out1, FireAll(calls, out, deps, p, v, src).1, c.promise, from);
    }
  }

  lemma FirstInTurn(out: seq<Msg>, out1: seq<Msg>, out': seq<Msg>, number: nat, from: nat)
    requires out1 == out || (|out1| == |out| + 1 && out <= out1 && out1[|out|].promise == number)
    requires SentInTurn(out1, out', number) && from <= number
    ensures SentInTurn(out, out', from)
  {
    if out1 != out {
      assert out'[|out|] == out1[|out|];
    }
  }

  lemma ResolveInTurn(s: State, p: nat, values: seq<Value>, src: Address)
    requires Shaped(s) && InTurn(s) && CanMove(s, Answers(p, values, src))
    ensures InTurn(Resolve(s, p, values, src)) && SentInTurn(s.out, Resolve(s, p, values, src).out, 0)
  {
    if p in s.promises {
      assert Pointers(s, p);
      FireInTurn(s.calls, s.out, s.promises[p].dependents, p, values[0], src, 0);
    }
  }

  lemma {:induction false} AlwaysInTurn(states: seq<State>, moves: seq<Move>, n: nat)
    requires Execution(states, moves) && n < |states|
    ensures InTurn(states[n])
  {
    hide Shaped, InTurn, Send, Resolve;
    if n == 0 {
      assert InTurn(states[0]) by {
        StartsInTurn(states[0]);
      }
    } else {
      AlwaysInTurn(states, moves, n - 1);
      AlwaysShaped(states, moves, n - 1);
      assert Follows(states[n - 1], moves[n - 1], states[n]);
      match moves[n - 1]
      case Sends(a, src) => SendInTurn(states[n - 1], a, src);
      case Answers(p, values, src) => ResolveInTurn(states[n - 1], p, values, src);
    }
  }

  lemma StartsInTurn(s: State)
    requires Init(s)
    ensures InTurn(s)
  {
  }

  /** The calls that one response completes are sent in the order in which they were made. */
  lemma SentInOrder(states: seq<State>, moves: seq<Move>, n: nat)
    requires Execution(states, moves) && n < |moves| && moves[n].Answers?
    ensures var out, out' := states[n].out, states[n + 1].out;
            out <= out' && forall i, j :: |out| <= i < j < |out'| ==> out'[i].promise <= out'[j].promise
  {
    AlwaysInTurn(states, moves, n);
    AlwaysShaped(states, moves, n);
    assert Follows(states[n], moves[n], states[n + 1]);
    ResolveInTurn(states[n], moves[n].p, moves[n].values, moves[n].src);
    hide Shaped, InTurn, Resolve;
  }
}
