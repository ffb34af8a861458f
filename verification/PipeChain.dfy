/** The chain of pipes, with calls in flight. */
module PipeChain {
  // Calls travel down the chain while pipes are attached to and detached from it. Pipe 0 is the one in which
  // calls originate.

  /** Where a link points: to a pipe, or to the sentinel whose every call throws "not yet ready". */
  datatype Link = NotReady | To(pipe: nat)

  /** How far the removal of a pipe is. */
  datatype PopPc =
    | Idle
    | Sleeping  // waits for the calls into it to leave
    | Woken     // has been notified and looks at the count again
    | Drained   // the wait is over

  datatype Pipe = Pipe(prev: Link, next: Link, calls: nat, detaching: bool, pop: PopPc)

  /** A call in flight: `from` has counted it and has read its next link. */
  datatype Call = Call(from: nat, target: Link)

  /** `threads` holds each thread's calls in flight, the innermost last. */
  datatype State = State(pipes: seq<Pipe>, threads: seq<seq<Call>>)

  datatype Step =
    | Invoke(t: nat)          // the pipe the thread is in passes a frame on
    | Return(t: nat)          // the innermost call returns or throws
    | Push(x: nat, p: nat)    // pipe x attaches itself to p
    | PopBegin(x: nat)        // pipe x detaches itself, up to the first look at the count
    | WakeSpuriously(x: nat)
    | Recheck(x: nat)
    | PopFinish(x: nat)

  /** The pipe whose code the thread runs. */
  function Where(calls: seq<Call>): Link {
    if calls == [] then To(0) else calls[|calls| - 1].target
  }

  /** What attaching asserts. */
  predicate PushAsserts(s: State, x: nat, p: nat)
    requires x < |s.pipes| && p < |s.pipes|
  {
    s.pipes[x].prev == NotReady && s.pipes[x].next == NotReady && s.pipes[p].next == NotReady
  }

  /** What detaching asserts. */
  predicate PopAsserts(s: State, x: nat)
    requires x < |s.pipes|
  {
    && s.pipes[x].next == NotReady
    && s.pipes[x].prev.To? && s.pipes[x].prev.pipe < |s.pipes| && s.pipes[s.pipes[x].prev.pipe].next == To(x)
  }

  predicate Popping(s: State, x: nat, pc: PopPc) {
    x < |s.pipes| && s.pipes[x].pop == pc && s.pipes[x].prev.To? && s.pipes[x].prev.pipe < |s.pipes|
  }

  predicate Enabled(s: State, step: Step) {
    match step
    case Invoke(t) => t < |s.threads| && Where(s.threads[t]).To? && Where(s.threads[t]).pipe < |s.pipes|
    case Return(t) =>
      && t < |s.threads| && s.threads[t] != []
      && var p := s.threads[t][|s.threads[t]| - 1].from; p < |s.pipes| && s.pipes[p].calls > 0
    case Push(x, p) => x < |s.pipes| && p < |s.pipes| && x != 0 && x != p && PushAsserts(s, x, p)
    case PopBegin(x) => x < |s.pipes| && s.pipes[x].pop == Idle && PopAsserts(s, x)
    case WakeSpuriously(x) => Popping(s, x, Sleeping)
    case Recheck(x) => Popping(s, x, Woken)
    case PopFinish(x) => Popping(s, x, Drained)
  }

  function SetPipe(s: State, p: nat, pipe: Pipe): State
    requires p < |s.pipes|
  {
    s.(pipes := s.pipes[p := pipe])
  }

  /** Whoever sleeps until the calls counted by p have left is woken up. */
  function NotifyAll(pipes: seq<Pipe>, p: nat): (woken: seq<Pipe>)
    ensures |woken| == |pipes|
    ensures forall x :: 0 <= x < |pipes| ==>
              woken[x] == if pipes[x].prev == To(p) && pipes[x].pop == Sleeping then pipes[x].(pop := Woken)
                          else pipes[x]
  {
    seq(|pipes|, x requires 0 <= x < |pipes| =>
      if pipes[x].prev == To(p) && pipes[x].pop == Sleeping then pipes[x].(pop := Woken) else pipes[x])
  }

  function AfterLook(calls: nat): PopPc {
    if calls == 0 then Drained else Sleeping
  }

  function Apply(s: State, step: Step): State
    requires Enabled(s, step)
  {
    match step
    case Invoke(t) =>
      var p := Where(s.threads[t]).pipe;
      var s1 := SetPipe(s, p, s.pipes[p].(calls := s.pipes[p].calls + 1));
      s1.(threads := s.threads[t := s.threads[t] + [Call(p, s.pipes[p].next)]])
    case Return(t) =>
      var rest, p := s.threads[t][..|s.threads[t]| - 1], s.threads[t][|s.threads[t]| - 1].from;
      var s1 := SetPipe(s, p, s.pipes[p].(calls := s.pipes[p].calls - 1));
      var s2 := if s1.pipes[p].calls == 0 && s1.pipes[p].detaching then s1.(pipes := NotifyAll(s1.pipes, p)) else s1;
      s2.(threads := s.threads[t := rest])
    case Push(x, p) =>
      var s1 := SetPipe(s, x, s.pipes[x].(prev := To(p)));
      SetPipe(s1, p, s1.pipes[p].(next := To(x)))
    case PopBegin(x) =>
      var p := s.pipes[x].prev.pipe;
      var s1 := SetPipe(s, p, s.pipes[p].(detaching := true, next := NotReady));
      SetPipe(s1, x, s1.pipes[x].(pop := AfterLook(s1.pipes[p].calls)))
    case WakeSpuriously(x) => SetPipe(s, x, s.pipes[x].(pop := Woken))
    case Recheck(x) => SetPipe(s, x, s.pipes[x].(pop := AfterLook(s.pipes[s.pipes[x].prev.pipe].calls)))
    case PopFinish(x) => SetPipe(s, x, s.pipes[x].(pop := Idle, prev := NotReady))
  }

  /** Any number of separate pipes and of threads. */
  ghost predicate Initial(s: State) {
    && s.pipes != []
    && (forall p :: 0 <= p < |s.pipes| ==> s.pipes[p] == Pipe(NotReady, NotReady, 0, false, Idle))
    && forall t :: 0 <= t < |s.threads| ==> s.threads[t] == []
  }

  ghost predicate Follows(states: seq<State>, steps: seq<Step>, k: nat) {
    && k < |steps| && |states| == |steps| + 1
    && Enabled(states[k], steps[k])
    && states[k + 1] == Apply(states[k], steps[k])
  }

  ghost predicate Run(states: seq<State>, steps: seq<Step>) {
    && |states| == |steps| + 1 && Initial(states[0])
    && forall k :: 0 <= k < |steps| ==> Follows(states, steps, k)
  }

  // ----- counting -----

  function CountFrom(calls: seq<Call>, p: nat): nat {
    if calls == [] then 0
    else CountFrom(calls[..|calls| - 1], p) + if calls[|calls| - 1].from == p then 1 else 0
  }

  function CountTo(calls: seq<Call>, x: nat): nat {
    if calls == [] then 0
    else CountTo(calls[..|calls| - 1], x) + if calls[|calls| - 1].target == To(x) then 1 else 0
  }

  /** How many calls in flight pipe p has counted. */
  function InFlight(threads: seq<seq<Call>>, p: nat): nat {
    if threads == [] then 0 else InFlight(threads[..|threads| - 1], p) + CountFrom(threads[|threads| - 1], p)
  }

  lemma {:induction false} InFlightUpdate(threads: seq<seq<Call>>, t: nat, calls: seq<Call>, p: nat)
    requires t < |threads|
    ensures InFlight(threads[t := calls], p) + CountFrom(threads[t], p) == InFlight(threads, p) + CountFrom(calls, p)
  {
    var front := threads[..|threads| - 1];
    if t == |threads| - 1 {
      assert threads[t := calls][..|threads| - 1] == front;
    } else {
      InFlightUpdate(front, t, calls, p);
      assert threads[t := calls][..|threads| - 1] == front[t := calls];
    }
  }

  lemma {:induction false} CountedCall(calls: seq<Call>, k: nat)
    requires k < |calls|
    ensures CountFrom(calls, calls[k].from) > 0
  {
    if k < |calls| - 1 {
      CountedCall(calls[..|calls| - 1], k);
    }
  }

  lemma {:induction false} CountedThread(threads: seq<seq<Call>>, t: nat, p: nat)
    requires t < |threads|
    ensures InFlight(threads, p) >= CountFrom(threads[t], p)
  {
    if t < |threads| - 1 {
      CountedThread(threads[..|threads| - 1], t, p);
    }
  }

  lemma {:induction false} SomeCall(calls: seq<Call>, p: nat) returns (k: nat)
    requires CountFrom(calls, p) > 0
    ensures k < |calls| && calls[k].from == p
  {
    if calls[|calls| - 1].from == p {
      k := |calls| - 1;
    } else {
      k := SomeCall(calls[..|calls| - 1], p);
    }
  }

  lemma {:induction false} SomeThread(threads: seq<seq<Call>>, p: nat) returns (t: nat, k: nat)
    requires InFlight(threads, p) > 0
    ensures t < |threads| && k < |threads[t]| && threads[t][k].from == p
  {
    if CountFrom(threads[|threads| - 1], p) > 0 {
      t := |threads| - 1;
      k := SomeCall(threads[t], p);
    } else {
      t, k := SomeThread(threads[..|threads| - 1], p);
    }
  }

  // ----- invariant -----

  ghost predicate LinkOk(s: State, p: nat) {
    p < |s.pipes| && s.pipes[p].next.To? ==>
      var x := s.pipes[p].next.pipe;
      x < |s.pipes| && x != p && x != 0 && s.pipes[x].prev == To(p) && s.pipes[x].pop == Idle
  }

  ghost predicate BackOk(s: State, x: nat) {
    x < |s.pipes| ==>
      var y := s.pipes[x];
      && (y.prev == NotReady ==> y.pop == Idle)
      && (y.prev.To? ==>
            var p := y.prev.pipe;
            && x != 0 && p < |s.pipes| && (s.pipes[p].next == To(x) <==> y.pop == Idle)
            && (y.pop != Idle ==> s.pipes[p].detaching)
            && (y.pop == Sleeping ==> s.pipes[p].calls > 0))
  }

  /** A call into a pipe was counted by its predecessor, and the pipe is not removed yet. */
  ghost predicate CallOk(s: State, t: nat, k: nat) {
    t < |s.threads| && k < |s.threads[t]| ==>
      var c := s.threads[t][k];
      && c.from < |s.pipes| && To(c.from) == Where(s.threads[t][..k])
      && (c.target.To? ==>
            var x := c.target.pipe;
            x < |s.pipes| && s.pipes[x].prev == To(c.from) && s.pipes[x].pop != Drained)
  }

  ghost predicate CountOk(s: State, p: nat) {
    p < |s.pipes| ==> s.pipes[p].calls == InFlight(s.threads, p)
  }

  ghost predicate Invariant(s: State) {
    && s.pipes != []
    && (forall p :: LinkOk(s, p)) && (forall x :: BackOk(s, x))
    && (forall t, k :: CallOk(s, t, k)) && (forall p :: CountOk(s, p))
  }

  lemma {:induction false} NothingInFlight(threads: seq<seq<Call>>, p: nat)
    requires forall t :: 0 <= t < |threads| ==> threads[t] == []
    ensures InFlight(threads, p) == 0
  {
    if threads != [] {
      NothingInFlight(threads[..|threads| - 1], p);
    }
  }

  lemma InvariantAtStart(s: State)
    requires Initial(s)
    ensures Invariant(s)
  {
    forall p ensures CountOk(s, p) { NothingInFlight(s.threads, p); }
  }

  lemma InvokeKeeps(s: State, t: nat)
    requires Invariant(s) && Enabled(s, Invoke(t))
    ensures Invariant(Apply(s, Invoke(t)))
  {
    var s', p := Apply(s, Invoke(t)), Where(s.threads[t]).pipe;
    var calls := s.threads[t] + [Call(p, s.pipes[p].next)];
    forall q ensures LinkOk(s', q) { assert LinkOk(s, q); }
    forall x ensures BackOk(s', x) { assert BackOk(s, x); }
    forall u: nat, k: nat ensures CallOk(s', u, k) {
      assert CallOk(s, u, k) && LinkOk(s, p);
      assert k <= |s.threads[t]| ==> calls[..k] == s.threads[t][..k];
    }
    forall q ensures CountOk(s', q) {
      assert CountOk(s, q);
      InFlightUpdate(s.threads, t, calls, q);
      assert calls[..|calls| - 1] == s.threads[t];
    }
  }

  lemma ReturnKeepsLinks(s: State, t: nat)
    requires (forall q :: LinkOk(s, q)) && (forall x :: BackOk(s, x)) && Enabled(s, Return(t))
    ensures forall q :: LinkOk(Apply(s, Return(t)), q)
    ensures forall x :: BackOk(Apply(s, Return(t)), x)
  {
    var s' := Apply(s, Return(t));
    forall q ensures LinkOk(s', q) { assert LinkOk(s, q); }
    forall x ensures BackOk(s', x) { assert BackOk(s, x); }
  }

  lemma ReturnKeeps(s: State, t: nat)
    requires Invariant(s) && Enabled(s, Return(t))
    ensures Invariant(Apply(s, Return(t)))
  {
    var s' := Apply(s, Return(t));
    var rest := s.threads[t][..|s.threads[t]| - 1];
    ReturnKeepsLinks(s, t);
    forall u: nat, k: nat ensures CallOk(s', u, k) {
      assert CallOk(s, u, k);
      assert k < |rest| ==> rest[..k] == s.threads[t][..k];
    }
    forall q ensures CountOk(s', q) {
      assert CountOk(s, q);
      InFlightUpdate(s.threads, t, rest, q);
    }
  }

  lemma PushKeeps(s: State, x: nat, p: nat)
    requires Invariant(s) && Enabled(s, Push(x, p))
    ensures Invariant(Apply(s, Push(x, p)))
  {
    var s' := Apply(s, Push(x, p));
    forall q ensures LinkOk(s', q) { assert LinkOk(s, q) && BackOk(s, x); }
    forall y ensures BackOk(s', y) { assert BackOk(s, y); }
    forall t, k ensures CallOk(s', t, k) { assert CallOk(s, t, k); }
    forall q ensures CountOk(s', q) { assert CountOk(s, q); }
  }

  /** Once the count is seen to be zero no call into the pipe is left. */
  lemma NoneLeft(s: State, x: nat, t: nat, k: nat)
    requires Invariant(s) && x < |s.pipes| && s.pipes[x].prev.To? && s.pipes[x].prev.pipe < |s.pipes|
    requires s.pipes[s.pipes[x].prev.pipe].calls == 0 && t < |s.threads| && k < |s.threads[t]|
    ensures s.threads[t][k].target != To(x)
  {
    assert CallOk(s, t, k) && CountOk(s, s.pipes[x].prev.pipe);
    CountedCall(s.threads[t], k);
    CountedThread(s.threads, t, s.threads[t][k].from);
  }

  lemma PopKeeps(s: State, step: Step)
    requires Invariant(s) && Enabled(s, step)
    requires step.PopBegin? || step.WakeSpuriously? || step.Recheck? || step.PopFinish?
    ensures Invariant(Apply(s, step))
  {
    var s' := Apply(s, step);
    assert BackOk(s, step.x) && LinkOk(s, s.pipes[step.x].prev.pipe);
    forall q ensures LinkOk(s', q) { assert LinkOk(s, q); }
    forall y ensures BackOk(s', y) { assert BackOk(s, y); }
    forall t: nat, k: nat ensures CallOk(s', t, k) {
      assert CallOk(s, t, k);
      if s.pipes[s.pipes[step.x].prev.pipe].calls == 0 && t < |s.threads| && k < |s.threads[t]| {
        NoneLeft(s, step.x, t, k);
      }
    }
    forall q ensures CountOk(s', q) { assert CountOk(s, q); }
  }

  lemma InvariantKept(s: State, step: Step)
    requires Invariant(s) && Enabled(s, step)
    ensures Invariant(Apply(s, step))
  {
    match step
    case Invoke(t) => InvokeKeeps(s, t);
    case Return(t) => ReturnKeeps(s, t);
    case Push(x, p) => PushKeeps(s, x, p);
    case _ => PopKeeps(s, step);
  }

  lemma {:induction false} InvariantAlong(states: seq<State>, steps: seq<Step>, j: nat, k: nat)
    requires |states| == |steps| + 1 && j <= k < |states| && Invariant(states[j])
    requires forall i :: j <= i < k ==> Follows(states, steps, i)
    ensures Invariant(states[k])
    decreases k - j
  {
    if j < k {
      assert Follows(states, steps, j);
      InvariantKept(states[j], steps[j]);
      InvariantAlong(states, steps, j + 1, k);
    }
  }

  lemma InvariantInRun(states: seq<State>, steps: seq<Step>, k: nat)
    requires Run(states, steps) && k < |states|
    ensures Invariant(states[k])
  {
    InvariantAtStart(states[0]);
    InvariantAlong(states, steps, 0, k);
  }

  // ----- what follows -----

  /** The counter is the number of threads between increment and decrement, nested calls counted each;
      so a call that is in flight can always return. */
  lemma CounterIsExact(states: seq<State>, steps: seq<Step>, p: nat, t: nat)
    requires Run(states, steps)
    ensures var s := states[|steps|]; p < |s.pipes| ==> s.pipes[p].calls == InFlight(s.threads, p)
    ensures var s := states[|steps|]; t < |s.threads| && s.threads[t] != [] ==> Enabled(s, Return(t))
  {
    InvariantInRun(states, steps, |steps|);
    var s := states[|steps|];
    assert CountOk(s, p);
    if t < |s.threads| && s.threads[t] != [] {
      CanReturn(s, t);
    }
  }

  lemma CanReturn(s: State, t: nat)
    requires Invariant(s) && t < |s.threads| && s.threads[t] != []
    ensures Enabled(s, Return(t))
  {
    var k := |s.threads[t]| - 1;
    assert CallOk(s, t, k) && CountOk(s, s.threads[t][k].from);
    CountedCall(s.threads[t], k);
    CountedThread(s.threads, t, s.threads[t][k].from);
  }

  /** The wait of the removal is over, or the pipe was never attached. */
  predicate Detached(s: State, x: nat) {
    x < |s.pipes| && (s.pipes[x].prev == NotReady || s.pipes[x].pop == Drained)
  }

  /** Thread t is executing in pipe x, or will return to it. */
  ghost predicate Inside(s: State, t: nat, x: nat) {
    t < |s.threads| && exists k :: 0 <= k < |s.threads[t]| && s.threads[t][k].target == To(x)
  }

  lemma NoCallInto(s: State, x: nat, t: nat)
    requires Invariant(s) && Detached(s, x)
    ensures !Inside(s, t, x)
  {
    forall k: nat | t < |s.threads| && k < |s.threads[t]| ensures s.threads[t][k].target != To(x) {
      assert CallOk(s, t, k);
    }
  }

  /** When the wait of a removal is over no thread is executing in the removed pipe, and it stays so until
      the pipe is attached again: nothing but that ends being detached. */
  lemma {:induction false} DetachedUntilPushed(states: seq<State>, steps: seq<Step>, x: nat, j: nat, k: nat)
    requires Run(states, steps) && j <= k < |states| && Detached(states[j], x)
    requires forall i, p :: j <= i < k ==> steps[i] != Push(x, p)
    ensures Detached(states[k], x) && forall t: nat :: !Inside(states[k], t, x)
    decreases k - j
  {
    if j < k {
      DetachedUntilPushed(states, steps, x, j, k - 1);
      InvariantInRun(states, steps, k - 1);
      assert Follows(states, steps, k - 1);
      StaysDetached(states[k - 1], steps[k - 1], x);
    }
    InvariantInRun(states, steps, k);
    forall t: nat ensures !Inside(states[k], t, x) {
      NoCallInto(states[k], x, t);
    }
  }

  lemma StaysDetached(s: State, step: Step, x: nat)
    requires Invariant(s) && Enabled(s, step) && Detached(s, x) && (step.Push? ==> step.x != x)
    ensures Detached(Apply(s, step), x)
  {
    assert BackOk(s, x);
  }

  /** A removal never sleeps while the count is zero, however often pipes came and went before (the flag
      that asks for the notification is never cleared). While it sleeps, a call is in flight whose
      thread can return from its innermost call. */
  lemma SleeperIsOwed(states: seq<State>, steps: seq<Step>, x: nat)
    requires Run(states, steps) && x < |states[|steps|].pipes| && states[|steps|].pipes[x].pop == Sleeping
    ensures var s := states[|steps|];
            && s.pipes[x].prev.To? && s.pipes[x].prev.pipe < |s.pipes| && s.pipes[s.pipes[x].prev.pipe].calls > 0
            && exists t :: CallsFrom(s, t, s.pipes[x].prev.pipe) && Enabled(s, Return(t))
  {
    InvariantInRun(states, steps, |steps|);
    SleeperIsOwedIn(states[|steps|], x);
  }

  lemma SleeperIsOwedIn(s: State, x: nat)
    requires Invariant(s) && x < |s.pipes| && s.pipes[x].pop == Sleeping
    ensures s.pipes[x].prev.To? && s.pipes[x].prev.pipe < |s.pipes| && s.pipes[s.pipes[x].prev.pipe].calls > 0
    ensures exists t :: CallsFrom(s, t, s.pipes[x].prev.pipe) && Enabled(s, Return(t))
  {
    assert BackOk(s, x);
    var p := s.pipes[x].prev.pipe;
    assert CountOk(s, p);
    var t, k := SomeThread(s.threads, p);
    CanReturn(s, t);
    assert CallsFrom(s, t, p);
  }

  /** A spurious wakeup does no harm: the removal looks at the count again and is asleep as before. */
  lemma SpuriousWakeupPasses(s: State, x: nat)
    requires Invariant(s) && Enabled(s, WakeSpuriously(x))
    ensures var s1 := Apply(s, WakeSpuriously(x)); Enabled(s1, Recheck(x)) && Apply(s1, Recheck(x)) == s
  {
    assert BackOk(s, x);
    assert s.pipes[x := s.pipes[x].(pop := Woken)][x := s.pipes[x]] == s.pipes;
  }

  ghost predicate CallsFrom(s: State, t: nat, p: nat) {
    t < |s.threads| && exists k :: 0 <= k < |s.threads[t]| && s.threads[t][k].from == p
  }

  // ----- nesting -----

  /** In one thread: every call out of x is made inside a call into x. */
  lemma {:induction false} NestedInThread(s: State, t: nat, n: nat, x: nat)
    requires Invariant(s) && t < |s.threads| && n <= |s.threads[t]| && x != 0
    ensures var calls := s.threads[t][..n];
            CountFrom(calls, x) + (if calls != [] && calls[n - 1].target == To(x) then 1 else 0) <= CountTo(calls, x)
  {
    if n > 0 {
      NestedInThread(s, t, n - 1, x);
      assert s.threads[t][..n][..n - 1] == s.threads[t][..n - 1];
      assert CallOk(s, t, n - 1);
    }
  }

  lemma {:induction false} IntoFromPredecessor(s: State, t: nat, n: nat, x: nat, p: nat)
    requires Invariant(s) && t < |s.threads| && n <= |s.threads[t]|
    requires x < |s.pipes| && (s.pipes[x].prev.To? ==> s.pipes[x].prev == To(p))
    ensures CountTo(s.threads[t][..n], x) <= if s.pipes[x].prev.To? then CountFrom(s.threads[t][..n], p) else 0
  {
    if n > 0 {
      IntoFromPredecessor(s, t, n - 1, x, p);
      assert s.threads[t][..n][..n - 1] == s.threads[t][..n - 1];
      assert CallOk(s, t, n - 1);
    }
  }

  lemma {:induction false} NestedInThreads(s: State, n: nat, x: nat, p: nat)
    requires Invariant(s) && n <= |s.threads| && x != 0
    requires x < |s.pipes| && (s.pipes[x].prev.To? ==> s.pipes[x].prev == To(p))
    ensures InFlight(s.threads[..n], x) <= if s.pipes[x].prev.To? then InFlight(s.threads[..n], p) else 0
  {
    if n > 0 {
      NestedInThreads(s, n - 1, x, p);
      assert s.threads[..n][..n - 1] == s.threads[..n - 1];
      var calls := s.threads[n - 1];
      assert calls[..|calls|] == calls;
      NestedInThread(s, n - 1, |calls|, x);
      IntoFromPredecessor(s, n - 1, |calls|, x, p);
    }
  }

  /** As many calls are in flight out of a pipe as out of its predecessor, or fewer; none are out of a
      pipe that has no predecessor. */
  lemma CountsNest(states: seq<State>, steps: seq<Step>, x: nat)
    requires Run(states, steps) && 0 < x < |states[|steps|].pipes|
    ensures var s := states[|steps|];
            && (s.pipes[x].prev.To? ==>
                  s.pipes[x].prev.pipe < |s.pipes| && s.pipes[x].calls <= s.pipes[s.pipes[x].prev.pipe].calls)
            && (s.pipes[x].prev == NotReady ==> s.pipes[x].calls == 0)
  {
    InvariantInRun(states, steps, |steps|);
    CountsNestIn(states[|steps|], x);
  }

  lemma CountsNestIn(s: State, x: nat)
    requires Invariant(s) && 0 < x < |s.pipes|
    ensures s.pipes[x].prev.To? ==>
              s.pipes[x].prev.pipe < |s.pipes| && s.pipes[x].calls <= s.pipes[s.pipes[x].prev.pipe].calls
    ensures s.pipes[x].prev == NotReady ==> s.pipes[x].calls == 0
  {
    var p := if s.pipes[x].prev.To? then s.pipes[x].prev.pipe else 0;
    assert BackOk(s, x) && CountOk(s, x) && CountOk(s, p);
    NestedInThreads(s, |s.threads|, x, p);
    assert s.threads[..|s.threads|] == s.threads;
  }
}
