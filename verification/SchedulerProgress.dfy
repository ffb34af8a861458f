/** No queue thread is left asleep for good. */
module SchedulerProgress {
  import opened Scheduler
  import opened SchedulerInvariant
  import opened SchedulerOwnership
  import opened SchedulerSafety

  /** Steps by which a queue thread that has a number moves on; a spurious wakeup is not one. */
  predicate Forward(step: Step) {
    step.Lock? || step.Pick? || step.Wait? || step.Relock? || step.Recheck? || step.Take? || step.LeaveShared?
    || step.FailWrite? || step.Complete? || step.Write? || step.Reenter? || step.RelockToRelease? || step.Release?
  }

  /** Either all streams up to the k-th are in use, or one of them is the first free one. */
  lemma FirstFree(s: State, streams: seq<nat>, k: nat) returns (free: bool, first: nat)
    requires k <= |streams|
    ensures free ==> first < k && !InUse(s, streams[first]) && forall j :: 0 <= j < first ==> InUse(s, streams[j])
    ensures !free ==> forall j :: 0 <= j < k ==> InUse(s, streams[j])
  {
    if k == 0 {
      return false, 0;
    }
    free, first := FirstFree(s, streams, k - 1);
    if !free && !InUse(s, streams[k - 1]) {
      return true, k - 1;
    }
  }

  /** Has a number, and has not handed its stream back. */
  predicate Underway(pc: SenderPc) {
    Choosing(pc) || Owns(pc)
  }

  /** The holder of a session's mutex can always go on. */
  lemma HolderMoves(s: State, u: nat) returns (step: Step)
    requires Invariant(s) && u < |s.senders| && HoldsMutex(s.senders[u].pc)
    ensures Enabled(s, step) && Forward(step) && !step.Reenter?
  {
    var x := s.senders[u];
    assert ChoiceOk(s, u) && OwnerOk(s, u);
    match x.pc {
      case Locked =>
        var streams := s.objects[x.session].streams;
        var free, first := FirstFree(s, streams, |streams|);
        step := if free then Pick(u, first) else Wait(u);
      case Picked =>
        assert StreamOk(s, x.session, x.socket);
        step := Take(u);
      case Rechecking => step := Recheck(u);
      case Relocked =>
        if t: nat :| AtPc(s, t, Waiting) && s.senders[t].session == x.session {
          step := Release(u, t);
        } else {
          assert NobodyWaits(s, x.session) by {
            assert forall t: nat :: AtPc(s, t, Waiting) ==> s.senders[t].session != x.session;
          }
          step := Release(u, u);
        }
    }
  }

  /** What sends, or has something to do on the way, can go on. */
  lemma SenderMoves(s: State, u: nat) returns (step: Step)
    requires Invariant(s) && AtPc(s, u, Sending)
    ensures Enabled(s, step) && Forward(step) && !step.Reenter?
  {
    assert OwnerOk(s, u) && SendOk(s, u) && FlightOk(s, u);
    var x := s.senders[u];
    step := if x.written == |x.buf| then Complete(u)
            else if s.sockets[x.socket].usable then Write(u, 1) else FailWrite(u);
  }

  /** Any thread under way that is not asleep can go on, or somebody else holds the mutex it wants and can;
      only to come back for the map's lock it may have to wait for whoever holds that exclusively. */
  lemma ThreadMoves(s: State, u: nat) returns (step: Step)
    requires Invariant(s) && u < |s.senders| && Underway(s.senders[u].pc) && s.senders[u].pc != Waiting
    requires s.senders[u].pc == Finishing ==> NoExclusive(s)
    ensures Enabled(s, step) && Forward(step) && (step.Reenter? ==> step.t == u)
  {
    hide Invariant;
    var pc := s.senders[u].pc;
    if pc == Numbered || pc == Woken || pc == Reentered {
      if MutexFree(s, s.senders[u].session) {
        step := if pc == Numbered then Lock(u) else if pc == Woken then Relock(u) else RelockToRelease(u);
      } else {
        var v: nat :| v < |s.senders| && HoldsMutex(s.senders[v].pc) && s.senders[v].session == s.senders[u].session;
        step := HolderMoves(s, v);
      }
    } else if pc == Sending {
      step := SenderMoves(s, u);
    } else if HoldsMutex(pc) {
      step := HolderMoves(s, u);
    } else {
      step := if pc == Taken then LeaveShared(u) else Reenter(u);
    }
  }

  /** No wakeup is lost: if the stream a thread sleeps for is free, another thread of the session is awake
      that will look at that stream before it can sleep, or has already picked it. */
  lemma FreeStreamHasTaker(s: State, t: nat)
    requires Reachable(s) && AtPc(s, t, Waiting) && !InUse(s, s.senders[t].socket)
    ensures exists u: nat :: u != t && WillLook(s, u, s.senders[t].session, s.senders[t].socket)
                             && s.senders[u].socket == s.senders[t].socket
  {
    ReachableInvariant(s);
    assert SleepOk(s, t);
    var u :| WillLook(s, u, s.senders[t].session, s.senders[t].socket);
    assert ChoiceOk(s, u) && ChoiceOk(s, t);
  }

  /** While a thread sleeps there is always a step, other than a spurious wakeup, by which some queue
      thread moves on; if that is coming back for the map's lock, it is on behalf of the sleeper's stream. */
  lemma SomebodyMoves(s: State, t: nat) returns (step: Step)
    requires Invariant(s) && AtPc(s, t, Waiting)
    ensures Enabled(s, step) && Forward(step)
    ensures step.Reenter? ==> InUse(s, s.senders[t].socket) && step.t == s.sockets[s.senders[t].socket].owner
  {
    var i := s.senders[t].socket;
    if InUse(s, i) {
      assert UseOk(s, i);
      forall j | 0 <= j < |s.sockets| ensures !HoldsExclusive(s.sockets[j].pc) { assert SharedOk(s, j, t); }
      step := ThreadMoves(s, s.sockets[i].owner);
    } else {
      assert SleepOk(s, t);
      var u :| WillLook(s, u, s.senders[t].session, i);
      step := ThreadMoves(s, u);
    }
  }

  /** The thread that is awake for a sleeper's free stream; with the mutex free it is about to lock it. */
  lemma AwakeForSleeper(s: State, t: nat) returns (u: nat)
    requires Invariant(s) && AtPc(s, t, Waiting) && !InUse(s, s.senders[t].socket)
    requires MutexFree(s, s.senders[t].session)
    ensures Enabled(s, Relock(u))
    ensures s.senders[u].session == s.senders[t].session && s.senders[u].socket == s.senders[t].socket
  {
    assert SleepOk(s, t);
    u :| WillLook(s, u, s.senders[t].session, s.senders[t].socket);
    assert ChoiceOk(s, u) && ChoiceOk(s, t);
  }

  // ----- runs of forward steps -----

  /** How far a thread is from the end of its send. Being woken up costs less than releasing a stream gains. */
  function Rank(x: Sender): nat {
    match x.pc
    case Numbered => |x.buf| + 14
    case Locked => |x.buf| + 13
    case Woken => |x.buf| + 12
    case Rechecking => |x.buf| + 11
    case Waiting => |x.buf| + 10
    case Picked => |x.buf| + 9
    case Taken => |x.buf| + 8
    case Sending => if x.written <= |x.buf| then |x.buf| - x.written + 7 else 7
    case Finishing => 6
    case Reentered => 5
    case Relocked => 4
    case _ => 0
  }

  function Measure(senders: seq<Sender>): nat {
    if senders == [] then 0 else Measure(senders[..|senders| - 1]) + Rank(senders[|senders| - 1])
  }

  lemma {:induction false} MeasureUpdate(senders: seq<Sender>, t: nat, x: Sender)
    requires t < |senders|
    ensures Measure(senders[t := x]) + Rank(senders[t]) == Measure(senders) + Rank(x)
  {
    var front := senders[..|senders| - 1];
    if t == |senders| - 1 {
      assert senders[t := x][..|senders| - 1] == front;
    } else {
      MeasureUpdate(front, t, x);
      assert senders[t := x][..|senders| - 1] == front[t := x];
    }
  }

  /** Any of the other forward steps moves its own thread only. */
  ghost predicate Falls(s: State, s': State, t: nat) {
    && t < |s.senders| == |s'.senders| && s'.senders == s.senders[t := s'.senders[t]]
    && Rank(s'.senders[t]) < Rank(s.senders[t])
  }

  lemma ChoosingFalls(s: State, step: Step)
    requires Enabled(s, step) && (step.Lock? || step.Pick? || step.Wait? || step.LeaveShared?)
    ensures Falls(s, Apply(s, step), step.t)
  {
  }

  lemma ReturningFalls(s: State, step: Step)
    requires Enabled(s, step) && (step.Relock? || step.Recheck? || step.Reenter? || step.RelockToRelease?)
    ensures Falls(s, Apply(s, step), step.t)
  {
  }

  lemma TakeFalls(s: State, t: nat)
    requires Enabled(s, Take(t))
    ensures Falls(s, Taking(s, t), t)
  {
  }

  lemma SendFalls(s: State, step: Step)
    requires Enabled(s, step) && InSend(step)
    ensures Falls(s, Apply(s, step), step.t)
  {
  }

  lemma TwoMove(a: seq<Sender>, b: seq<Sender>, t: nat, u: nat)
    requires |a| == |b| && t < |a| && u < |a| && t != u
    requires forall v :: 0 <= v < |a| && v != t && v != u ==> b[v] == a[v]
    ensures Measure(b) + Rank(a[t]) + Rank(a[u]) == Measure(a) + Rank(b[t]) + Rank(b[u])
  {
    hide Rank;
    MeasureUpdate(a, u, b[u]);
    MeasureUpdate(a[u := b[u]], t, b[t]);
    assert b == a[u := b[u]][t := b[t]];
  }

  lemma ReleaseFalls(s: State, s': State, t: nat, woken: nat)
    requires ReleaseChange(s, s', t, woken)
    ensures Measure(s'.senders) < Measure(s.senders)
  {
    if woken == t {
      MeasureUpdate(s.senders, t, s'.senders[t]);
      assert s'.senders == s.senders[t := s'.senders[t]];
    } else {
      TwoMove(s.senders, s'.senders, t, woken);
    }
  }

  lemma ForwardDecreases(s: State, step: Step)
    requires Enabled(s, step) && Forward(step)
    ensures Measure(Apply(s, step).senders) < Measure(s.senders)
  {
    if step.Release? {
      ReleaseSteps(s, step.t, step.woken);
      ReleaseFalls(s, Apply(s, step), step.t, step.woken);
    } else {
      if step.Lock? || step.Pick? || step.Wait? || step.LeaveShared? {
        ChoosingFalls(s, step);
      } else if Local(step) {
        ReturningFalls(s, step);
      } else if step.Take? {
        TakeFalls(s, step.t);
      } else {
        SendFalls(s, step);
      }
      MeasureUpdate(s.senders, step.t, Apply(s, step).senders[step.t]);
    }
  }

  /** A run that takes forward steps only. */
  ghost predicate ForwardRun(states: seq<State>, steps: seq<Step>) {
    |states| == |steps| + 1 && forall k :: 0 <= k < |steps| ==> FollowsForward(states, steps, k)
  }

  ghost predicate FollowsForward(states: seq<State>, steps: seq<Step>, k: nat) {
    k < |steps| && Forward(steps[k]) && Follows(states, steps, k)
  }

  lemma OneStepEarlier(s: State, step: Step, states: seq<State>, steps: seq<Step>)
    requires Enabled(s, step) && Forward(step) && ForwardRun(states, steps) && states[0] == Apply(s, step)
    ensures ForwardRun([s] + states, [step] + steps)
  {
    hide Apply, Enabled, Forward;
    forall k | 0 <= k < |steps| + 1 ensures FollowsForward([s] + states, [step] + steps, k) {
      if k > 0 {
        assert FollowsForward(states, steps, k - 1);
      }
    }
  }

  ghost predicate NobodySleeps(s: State) {
    forall t :: 0 <= t < |s.senders| ==> s.senders[t].pc != Waiting
  }

  /** No thread is between getting a number and giving its stream back, and each number that was given out
      is completed or lost. */
  ghost predicate Settled(s: State) {
    && (forall t :: 0 <= t < |s.senders| ==> !Underway(s.senders[t].pc))
    && forall r, n :: 0 <= r < |s.objects| && 0 <= n < |s.objects[r].fates| ==> s.objects[r].fates[n] != InFlight
  }

  /** No forward step is left. */
  ghost predicate AtEnd(s: State) {
    forall step :: Forward(step) ==> !Enabled(s, step)
  }

  lemma EndIsSettled(s: State)
    requires Invariant(s) && AtEnd(s)
    ensures NobodySleeps(s) && (NoExclusive(s) ==> Settled(s))
  {
    hide Invariant;
    forall t: nat | t < |s.senders| ensures s.senders[t].pc != Waiting {
      if AtPc(s, t, Waiting) {
        var step := SomebodyMoves(s, t);
      }
    }
    if NoExclusive(s) {
      forall t: nat | t < |s.senders| ensures !Underway(s.senders[t].pc) {
        if Underway(s.senders[t].pc) {
          var step := ThreadMoves(s, t);
        }
      }
      NoFlightsLeft(s);
    }
  }

  lemma NoFlightsLeft(s: State)
    requires Invariant(s) && forall t :: 0 <= t < |s.senders| ==> !Underway(s.senders[t].pc)
    ensures Settled(s)
  {
    forall r: nat, n: nat | r < |s.objects| && n < |s.objects[r].fates| ensures s.objects[r].fates[n] != InFlight {
      assert CounterOk(s, r) && NumberOk(s, r, n);
    }
  }

  /** A forward step leaves the map's lock as exclusive as it was. */
  lemma SocketsStay(s: State, step: Step)
    requires Enabled(s, step) && Forward(step) && NoExclusive(s)
    ensures NoExclusive(Apply(s, step))
  {
    if step.Release? {
      ReleaseSteps(s, step.t, step.woken);
    } else if InSend(step) {
      var t := SendSteps(s, step);
    }
  }

  /** However the threads are scheduled, forward steps come to an end after a number of steps that is known
      in advance. At the end no thread sleeps; and if no socket thread held the map's lock to begin with,
      every frame with a number has been completed or lost, and its stream given back. */
  lemma {:induction false} ForwardRunsServeSleepers(states: seq<State>, steps: seq<Step>, k: nat)
    requires ForwardRun(states, steps) && Reachable(states[0]) && k < |states|
    ensures Invariant(states[k]) && Measure(states[k].senders) + k <= Measure(states[0].senders)
    ensures AtEnd(states[k]) ==> NobodySleeps(states[k]) && (NoExclusive(states[0]) ==> Settled(states[k]))
  {
    RunGoesForward(states, steps, k);
    if AtEnd(states[k]) {
      EndIsSettled(states[k]);
    }
  }

  lemma {:induction false} RunGoesForward(states: seq<State>, steps: seq<Step>, k: nat)
    requires ForwardRun(states, steps) && Reachable(states[0]) && k < |states|
    ensures Invariant(states[k]) && Measure(states[k].senders) + k <= Measure(states[0].senders)
    ensures NoExclusive(states[0]) ==> NoExclusive(states[k])
  {
    hide Invariant, Apply, Forward, Reachable, Measure, NoExclusive;
    if k == 0 {
      ReachableInvariant(states[0]);
    } else {
      RunGoesForward(states, steps, k - 1);
      assert FollowsForward(states, steps, k - 1);
      InvariantKept(states[k - 1], steps[k - 1]);
      ForwardDecreases(states[k - 1], steps[k - 1]);
      if NoExclusive(states[k - 1]) {
        SocketsStay(states[k - 1], steps[k - 1]);
      }
    }
  }

  lemma NotInUse(s: State, i: nat)
    requires Ownership(s) && forall u :: 0 <= u < |s.senders| ==> !Owns(s.senders[u].pc)
    ensures !InUse(s, i)
  {
    assert UseOk(s, i);
  }

  /** With no send under way, a sleeper is not stuck: a thread, the sleeper or another, can take a stream
      within three steps of its own. */
  lemma IdleReachesTake(s: State, t: nat) returns (u: nat, states: seq<State>, steps: seq<Step>)
    requires Reachable(s) && AtPc(s, t, Waiting)
    requires forall v :: 0 <= v < |s.senders| ==> !Owns(s.senders[v].pc)
    ensures ForwardRun(states, steps) && states[0] == s && 1 <= |steps| <= 3 && steps[|steps| - 1] == Take(u)
  {
    ReachableInvariant(s);
    if MutexFree(s, s.senders[t].session) {
      NotInUse(s, s.senders[t].socket);
      u := AwakeForSleeper(s, t);
      var s1 := Apply(s, Relock(u));
      InvariantKept(s, Relock(u));
      states, steps := RecheckAndTake(s1, u);
      OneStepEarlier(s, Relock(u), states, steps);
      states, steps := [s] + states, [Relock(u)] + steps;
    } else {
      u :| u < |s.senders| && HoldsMutex(s.senders[u].pc) && s.senders[u].session == s.senders[t].session;
      if s.senders[u].pc == Rechecking {
        states, steps := RecheckAndTake(s, u);
      } else {
        states, steps := PickAndTake(s, u);
      }
    }
  }

  lemma RecheckAndTake(s: State, u: nat) returns (states: seq<State>, steps: seq<Step>)
    requires Registry(s) && Choices(s) && Ownership(s) && AtPc(s, u, Rechecking)
    requires forall v :: 0 <= v < |s.senders| ==> !Owns(s.senders[v].pc)
    ensures ForwardRun(states, steps) && states[0] == s && steps == [Recheck(u), Take(u)]
  {
    assert ChoiceOk(s, u) && StreamOk(s, s.senders[u].session, s.senders[u].socket);
    NotInUse(s, s.senders[u].socket);
    var s1 := Apply(s, Recheck(u));
    steps := [Recheck(u), Take(u)];
    states := [s, s1, Apply(s1, Take(u))];
  }

  lemma PickAndTake(s: State, u: nat) returns (states: seq<State>, steps: seq<Step>)
    requires Registry(s) && Choices(s) && Ownership(s) && (AtPc(s, u, Locked) || AtPc(s, u, Picked))
    requires forall v :: 0 <= v < |s.senders| ==> !Owns(s.senders[v].pc)
    ensures ForwardRun(states, steps) && states[0] == s
    ensures steps == if AtPc(s, u, Picked) then [Take(u)] else [Pick(u, 0), Take(u)]
  {
    assert ChoiceOk(s, u);
    if AtPc(s, u, Picked) {
      assert StreamOk(s, s.senders[u].session, s.senders[u].socket);
      states, steps := [s, Apply(s, Take(u))], [Take(u)];
    } else {
      var i := s.objects[s.senders[u].session].streams[0];
      assert StreamOk(s, s.senders[u].session, i);
      NotInUse(s, i);
      var s1 := Apply(s, Pick(u, 0));
      states, steps := [s, s1, Apply(s1, Take(u))], [Pick(u, 0), Take(u)];
    }
  }

  lemma NoRegistration(s: State, t: nat, i: nat)
    requires Locks(s) && AtPc(s, t, Waiting)
    ensures !Enabled(s, Register(i)) && !Enabled(s, Unregister(i))
  {
    assert SharedOk(s, i, t);
  }

  lemma SameSleepers(s: State, t: nat, u: nat)
    requires Registry(s) && Choices(s) && AtPc(s, t, Waiting) && AtPc(s, u, Waiting)
    ensures s.senders[u].session == s.senders[t].session && s.senders[u].socket == s.senders[t].socket
  {
    assert ChoiceOk(s, t) && ChoiceOk(s, u);
    assert ObjectOk(s, s.senders[t].session) && ObjectOk(s, s.senders[u].session);
  }

  /** The streams cannot change under a sleeper: neither registration nor unregistration can happen, and
      all sleepers are after the same stream, the first of the only session. */
  lemma SleepersAgree(s: State, t: nat, u: nat, i: nat)
    requires Reachable(s) && AtPc(s, t, Waiting)
    ensures !Enabled(s, Register(i)) && !Enabled(s, Unregister(i))
    ensures AtPc(s, u, Waiting) ==>
              s.senders[u].session == s.senders[t].session && s.senders[u].socket == s.senders[t].socket
    ensures HasSession(s, t) && s.objects[s.senders[t].session].streams != []
            && s.senders[t].socket == s.objects[s.senders[t].session].streams[0]
  {
    ReachableInvariant(s);
    NoRegistration(s, t, i);
    assert ChoiceOk(s, t);
    if AtPc(s, u, Waiting) {
      SameSleepers(s, t, u);
    }
  }
}
