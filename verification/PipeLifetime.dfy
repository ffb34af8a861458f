/** Pipes owned by constructors and destructors. */
module PipeLifetime {
  import opened Lists
  import opened PipeChain

  // Pipes attach themselves when they are constructed and detach themselves when they are destroyed, in the
  // reverse order: 0 is the tunnel, then come the compressing, the signing and the socket pipe.

  /** The owner has constructed pipes 1 .. height; `ending` while the last of them is being destroyed. */
  datatype Owned = Owned(chain: State, height: nat, ending: bool)

  /** What the owner and the calling threads do next, whether or not an assertion stops it. */
  predicate MayDo(o: Owned, step: Step) {
    match step
    case Push(x, p) => !o.ending && p == o.height && x == p + 1 && x < |o.chain.pipes|
    case PopBegin(x) => !o.ending && x == o.height && x > 0
    case _ => Enabled(o.chain, step)
  }

  function Next(o: Owned, step: Step): Owned
    requires Enabled(o.chain, step)
  {
    var chain := Apply(o.chain, step);
    match step
    case Push(x, p) => Owned(chain, x, false)
    case PopBegin(x) => Owned(chain, x, true)
    case PopFinish(x) => Owned(chain, if x > 0 then x - 1 else 0, false)
    case _ => o.(chain := chain)
  }

  ghost predicate Proceeds(states: seq<Owned>, steps: seq<Step>, k: nat) {
    && k < |steps| && |states| == |steps| + 1
    && MayDo(states[k], steps[k])
    && Enabled(states[k].chain, steps[k])
    && states[k + 1] == Next(states[k], steps[k])
  }

  ghost predicate OwnedRun(states: seq<Owned>, steps: seq<Step>) {
    && |states| == |steps| + 1
    && Initial(states[0].chain) && states[0].height == 0 && !states[0].ending
    && forall k :: 0 <= k < |steps| ==> Proceeds(states, steps, k)
  }

  ghost predicate LayerOk(o: Owned, x: nat) {
    x < |o.chain.pipes| ==>
      var y := o.chain.pipes[x];
      && y.prev == (if 1 <= x <= o.height then To(x - 1) else NotReady)
      && y.next == (if x < o.height && !(o.ending && x == o.height - 1) then To(x + 1) else NotReady)
      && (y.pop != Idle <==> o.ending && x == o.height)
  }

  /** The attached pipes form one chain from the tunnel down. */
  ghost predicate Chained(o: Owned) {
    && o.height < |o.chain.pipes| && (o.ending ==> o.height > 0)
    && forall x :: LayerOk(o, x)
  }

  lemma ChainedKept(o: Owned, step: Step)
    requires Invariant(o.chain) && Chained(o) && MayDo(o, step) && Enabled(o.chain, step)
    ensures Chained(Next(o, step))
  {
    var o' := Next(o, step);
    if step.Push? || step.PopBegin? || step.PopFinish? || step.WakeSpuriously? || step.Recheck? {
      assert LayerOk(o, step.x);
      assert step.x > 0 ==> LayerOk(o, step.x - 1);
    }
    forall x: nat ensures LayerOk(o', x) { assert LayerOk(o, x); }
  }

  lemma {:induction false} EveryOwnedRunChained(states: seq<Owned>, steps: seq<Step>, k: nat)
    requires OwnedRun(states, steps) && k < |states|
    ensures Invariant(states[k].chain) && Chained(states[k])
  {
    if k == 0 {
      InvariantAtStart(states[0].chain);
      forall x: nat ensures LayerOk(states[0], x) {
        assert x < |states[0].chain.pipes| ==> states[0].chain.pipes[x].pop == Idle;
      }
    } else {
      EveryOwnedRunChained(states, steps, k - 1);
      assert Proceeds(states, steps, k - 1);
      InvariantKept(states[k - 1].chain, steps[k - 1]);
      ChainedKept(states[k - 1], steps[k - 1]);
    }
  }

  /** No assertion fails: whatever calls are in flight, constructing the next pipe and destroying the last
      one find their links as they must be. And the assertions insist on that order: they let no pipe be
      removed but the last, none be attached that is attached already, and none to a pipe but the last or
      one that is not attached itself. */
  lemma AssertionsHold(states: seq<Owned>, steps: seq<Step>, step: Step)
    requires OwnedRun(states, steps)
    ensures MayDo(states[|steps|], step) ==> Enabled(states[|steps|].chain, step)
    ensures var o := states[|steps|];
            !o.ending ==> forall x :: 0 <= x < |o.chain.pipes| ==> (PopAsserts(o.chain, x) <==> x == o.height && x > 0)
    ensures var o := states[|steps|];
            !o.ending ==> forall x, p :: 0 <= x < |o.chain.pipes| && 0 <= p < |o.chain.pipes| ==>
                            (PushAsserts(o.chain, x, p) <==> (x > o.height || x == o.height == 0) && p >= o.height)
  {
    EveryOwnedRunChained(states, steps, |steps|);
    var o := states[|steps|];
    if step.Push? || step.PopBegin? {
      assert LayerOk(o, step.x);
    }
    assert LayerOk(o, o.height);
    if o.height > 0 {
      assert LayerOk(o, o.height - 1);
    }
    forall x | !o.ending && 0 <= x < |o.chain.pipes| ensures PopAsserts(o.chain, x) <==> x == o.height && x > 0 {
      assert LayerOk(o, x);
    }
    forall x, p | !o.ending && 0 <= x < |o.chain.pipes| && 0 <= p < |o.chain.pipes|
      ensures PushAsserts(o.chain, x, p) <==> (x > o.height || x == o.height == 0) && p >= o.height
    {
      assert LayerOk(o, x) && LayerOk(o, p);
    }
  }

  lemma OneMoreStep(states: seq<Owned>, steps: seq<Step>, step: Step)
    requires OwnedRun(states, steps) && MayDo(states[|steps|], step) && Enabled(states[|steps|].chain, step)
    ensures OwnedRun(states + [Next(states[|steps|], step)], steps + [step])
  {
    var states', steps' := states + [Next(states[|steps|], step)], steps + [step];
    forall k | 0 <= k < |steps'| ensures Proceeds(states', steps', k) {
      assert k < |steps| ==> Proceeds(states, steps, k);
    }
  }

  /** The thread's innermost call, in an attached pipe, calls the next one, or the sentinel. */
  lemma OneCallFurther(states: seq<Owned>, steps: seq<Step>, t: nat, p: nat) returns (o: Owned)
    requires OwnedRun(states, steps) && !states[|steps|].ending && p <= states[|steps|].height
    requires CallAt(states, |steps|, t, To(p))
    ensures OwnedRun(states + [o], steps + [Invoke(t)])
    ensures !o.ending && o.height == states[|steps|].height
    ensures CallAt(states + [o], |steps| + 1, t, if p < o.height then To(p + 1) else NotReady)
  {
    EveryOwnedRunChained(states, steps, |steps|);
    assert LayerOk(states[|steps|], p);
    OneMoreStep(states, steps, Invoke(t));
    o := Next(states[|steps|], Invoke(t));
  }

  /** Whenever no pipe is being destroyed, a call of a thread that has none in flight can travel down the whole
      chain: its i-th step enters the i-th pipe, and only below the last does it meet the sentinel. */
  lemma {:induction false} CallTravelsDown(states: seq<Owned>, steps: seq<Step>, t: nat, n: nat)
    returns (more: seq<Owned>)
    requires OwnedRun(states, steps) && !states[|steps|].ending && t < |states[|steps|].chain.threads|
    requires states[|steps|].chain.threads[t] == [] && n <= states[|steps|].height + 1
    ensures |more| == n && OwnedRun(states + more, steps + Invokes(t, n))
    ensures forall i :: 0 <= i <= n ==>
              CallAt(states + more, |steps| + i, t, if i <= states[|steps|].height then To(i) else NotReady)
    ensures var o := (states + more)[|steps| + n]; !o.ending && o.height == states[|steps|].height
  {
    if n == 0 {
      more := [];
      assert states + more == states && steps + Invokes(t, 0) == steps;
    } else {
      more := CallTravelsDown(states, steps, t, n - 1);
      var before, height := states + more, states[|steps|].height;
      assert CallAt(before, |steps| + (n - 1), t, To(n - 1));
      var o := OneCallFurther(before, steps + Invokes(t, n - 1), t, n - 1);
      Associative(states, more, [o]);
      Associative(steps, Invokes(t, n - 1), [Invoke(t)]);
      more := more + [o];
      forall i | 0 <= i <= n ensures CallAt(states + more, |steps| + i, t, if i <= height then To(i) else NotReady) {
        assert i < n ==> CallAt(before, |steps| + i, t, if i <= height then To(i) else NotReady);
      }
    }
  }

  function Invokes(t: nat, n: nat): (steps: seq<Step>)
    ensures |steps| == n
  {
    if n == 0 then [] else Invokes(t, n - 1) + [Invoke(t)]
  }

  /** In the k-th state the thread runs the code that this link leads to. */
  ghost predicate CallAt(states: seq<Owned>, k: nat, t: nat, link: Link) {
    k < |states| && t < |states[k].chain.threads| && Where(states[k].chain.threads[t]) == link
  }

  /** At every moment: no thread is in a destroyed pipe, and each attached pipe has no more calls in
      flight than its predecessor. Once all are destroyed, the tunnel's next link is the sentinel. */
  lemma DestroyedPipesAreEmpty(states: seq<Owned>, steps: seq<Step>, x: nat, t: nat)
    requires OwnedRun(states, steps) && 0 < x < |states[|steps|].chain.pipes|
    ensures var o := states[|steps|];
            && (x > o.height ==> !Inside(o.chain, t, x) && o.chain.pipes[x].calls == 0)
            && (x <= o.height ==> o.chain.pipes[x].calls <= o.chain.pipes[x - 1].calls)
            && (o.height == 0 ==> o.chain.pipes[0].next == NotReady)
  {
    EveryOwnedRunChained(states, steps, |steps|);
    var o := states[|steps|];
    assert LayerOk(o, x) && LayerOk(o, 0);
    CountsNestIn(o.chain, x);
    if x > o.height {
      NoCallInto(o.chain, x, t);
    }
  }

  /** Destroying a pipe never gets stuck: at each moment it can go on, or a call that it waits for is in
      flight and the thread that makes it can return. */
  lemma DestructionGoesOn(states: seq<Owned>, steps: seq<Step>)
    requires OwnedRun(states, steps) && states[|steps|].ending
    ensures states[|steps|].height > 0
    ensures var o := states[|steps|];
            || Enabled(o.chain, Recheck(o.height)) || Enabled(o.chain, PopFinish(o.height))
            || exists t :: CallsFrom(o.chain, t, o.height - 1) && Enabled(o.chain, Return(t))
  {
    EveryOwnedRunChained(states, steps, |steps|);
    var o := states[|steps|];
    assert LayerOk(o, o.height);
    if o.chain.pipes[o.height].pop == Sleeping {
      SleeperIsOwedIn(o.chain, o.height);
    }
  }

  /** How many calls are in flight in all. */
  function Total(threads: seq<seq<Call>>): nat {
    if threads == [] then 0 else Total(threads[..|threads| - 1]) + |threads[|threads| - 1]|
  }

  lemma {:induction false} TotalUpdate(threads: seq<seq<Call>>, t: nat, calls: seq<Call>)
    requires t < |threads|
    ensures Total(threads[t := calls]) + |threads[t]| == Total(threads) + |calls|
  {
    var front := threads[..|threads| - 1];
    if t == |threads| - 1 {
      assert threads[t := calls][..|threads| - 1] == front;
    } else {
      TotalUpdate(front, t, calls);
      assert threads[t := calls][..|threads| - 1] == front[t := calls];
    }
  }

  /** How much of a removal is left to do. */
  function Left(o: Owned): nat {
    3 * Total(o.chain.threads) +
    if o.height >= |o.chain.pipes| then 0
    else match o.chain.pipes[o.height].pop
         case Woken => 2
         case Sleeping => 1
         case _ => 0
  }

  /** The next thing to be done: the removal looks or finishes, or a call that it waits for returns. */
  lemma GoesOn(o: Owned) returns (step: Step)
    requires Invariant(o.chain) && Chained(o) && o.ending
    ensures step.Recheck? || step.PopFinish? || step.Return?
    ensures MayDo(o, step) && Enabled(o.chain, step)
    ensures var o' := Next(o, step);
            if step.PopFinish? then !o'.ending && o'.height == o.height - 1
            else o'.ending && o'.height == o.height && Left(o') < Left(o)
  {
    assert LayerOk(o, o.height);
    match o.chain.pipes[o.height].pop {
      case Drained => step := PopFinish(o.height);
      case Woken => step := Recheck(o.height);
      case Sleeping =>
        SleeperIsOwedIn(o.chain, o.height);
        var t: nat :| CallsFrom(o.chain, t, o.height - 1) && Enabled(o.chain, Return(t));
        step := Return(t);
        var calls := o.chain.threads[t];
        TotalUpdate(o.chain.threads, t, calls[..|calls| - 1]);
    }
  }

  /** And it does come to an end if the calls do: from every state of a destruction there is a continuation, of
      returning calls and the removal's own steps only, after which the pipe is destroyed. */
  lemma {:induction false} DestructionCompletes(states: seq<Owned>, steps: seq<Step>)
    returns (more: seq<Owned>, moreSteps: seq<Step>)
    requires OwnedRun(states, steps) && states[|steps|].ending
    ensures OwnedRun(states + more, steps + moreSteps) && |more| == |moreSteps| <= Left(states[|steps|]) + 1
    ensures forall step :: step in moreSteps ==> step.Recheck? || step.PopFinish? || step.Return?
    ensures var o := (states + more)[|steps + moreSteps|]; !o.ending && o.height == states[|steps|].height - 1
    decreases Left(states[|steps|])
  {
    EveryOwnedRunChained(states, steps, |steps|);
    var o := states[|steps|];
    var step := GoesOn(o);
    OneMoreStep(states, steps, step);
    if step.PopFinish? {
      more, moreSteps := [Next(o, step)], [step];
    } else {
      more, moreSteps := DestructionCompletes(states + [Next(o, step)], steps + [step]);
      Associative(states, [Next(o, step)], more);
      Associative(steps, [step], moreSteps);
      more, moreSteps := [Next(o, step)] + more, [step] + moreSteps;
    }
  }
}
