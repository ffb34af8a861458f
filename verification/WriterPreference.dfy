/** Why the map's lock must let shared lockers pass an exclusive one that waits. */
module WriterPreference {
  import opened Scheduler
  import opened SchedulerInvariant
  import opened SchedulerOwnership
  import opened SchedulerSafety
  import opened SchedulerProgress

  // A thread asleep for a stream keeps the map's lock shared, and whoever is to release that stream needs it
  // again.

  /** The socket thread has asked for the map's lock, exclusively, and does not have it yet. */
  predicate Pending(pc: SocketPc) {
    pc == AskedToJoin || pc == AskedToLeave
  }

  /** That is, it would get the lock if nobody held it. */
  lemma PendingWouldLock(s: State, i: nat)
    requires i < |s.sockets| && NoShared(s) && NoExclusive(s)
    ensures Pending(s.sockets[i].pc) <==> Enabled(s, LockToRegister(i)) || Enabled(s, LockToLeave(i))
  {
  }

  ghost predicate NobodyPending(s: State) {
    forall i :: 0 <= i < |s.sockets| ==> !Pending(s.sockets[i].pc)
  }

  /** Steps under a lock that prefers writers. */
  ghost predicate EnabledIfWritersFirst(s: State, step: Step) {
    Enabled(s, step) && (step.Enter? || step.Reenter? ==> NobodyPending(s))
  }

  /** Some run under such a lock leads here. */
  ghost predicate ReachableIfWritersFirst(s: State) {
    exists states, steps :: Run(states, steps) && WritersFirst(states, steps) && states[|steps|] == s
  }

  ghost predicate WritersFirst(states: seq<State>, steps: seq<Step>)
    requires |states| == |steps| + 1
  {
    forall m :: 0 <= m < |steps| ==> FollowsIfWritersFirst(states, steps, m)
  }

  ghost predicate FollowsIfWritersFirst(states: seq<State>, steps: seq<Step>, m: nat) {
    && m < |steps| && |states| == |steps| + 1
    && EnabledIfWritersFirst(states[m], steps[m])
    && states[m + 1] == Apply(states[m], steps[m])
  }

  lemma OneMoreStep(s: State, step: Step)
    requires ReachableIfWritersFirst(s) && EnabledIfWritersFirst(s, step)
    ensures ReachableIfWritersFirst(Apply(s, step))
  {
    var states, steps :| Run(states, steps) && WritersFirst(states, steps) && states[|steps|] == s;
    var states', steps' := states + [Apply(s, step)], steps + [step];
    forall m | 0 <= m < |steps'| ensures FollowsIfWritersFirst(states', steps', m) && Follows(states', steps', m) {
      if m < |steps| {
        assert FollowsIfWritersFirst(states, steps, m);
      }
    }
    assert Run(states', steps') && WritersFirst(states', steps') && states'[|steps'|] == Apply(s, step);
  }

  /** Such a lock only takes steps away. */
  lemma ReachableAnyway(s: State)
    requires ReachableIfWritersFirst(s)
    ensures Reachable(s)
  {
  }

  /** Thread t waits for the stream that thread o has finished with but not released, while socket
      thread j has asked for the lock, exclusively. */
  predicate Stuck(s: State, t: nat, o: nat, j: nat) {
    && t < |s.senders| && Waits(s.senders[t].pc)
    && AtPc(s, o, Finishing) && s.senders[o].socket == s.senders[t].socket
    && j < |s.sockets| && Pending(s.sockets[j].pc)
  }

  /** No step of any thread gets them out of it. */
  lemma StuckStays(s: State, step: Step, t: nat, o: nat, j: nat)
    requires Invariant(s) && Stuck(s, t, o, j) && EnabledIfWritersFirst(s, step)
    ensures Stuck(Apply(s, step), t, o, j)
  {
    hide Apply, Enabled;
    assert OwnerOk(s, o);
    if Local(step) {
      LocalStaysStuck(s, step, t, o, j);
    } else if Unregistered(step) {
      SocketStaysStuck(s, step, t, o, j);
    } else if InSend(step) {
      SendStaysStuck(s, step, t, o, j);
    } else {
      RestStaysStuck(s, step, t, o, j);
    }
  }

  lemma LocalStaysStuck(s: State, step: Step, t: nat, o: nat, j: nat)
    requires Stuck(s, t, o, j) && InUse(s, s.senders[o].socket) && EnabledIfWritersFirst(s, step) && Local(step)
    ensures Stuck(Apply(s, step), t, o, j)
  {
    hide Apply, Enabled;
    var u, x := LocalSteps(s, step);
    if u == t || u == o {
      PairStaysStuck(s, step, t, o, j);
    }
  }

  lemma PairStaysStuck(s: State, step: Step, t: nat, o: nat, j: nat)
    requires Stuck(s, t, o, j) && InUse(s, s.senders[o].socket) && EnabledIfWritersFirst(s, step) && Local(step)
    requires step.t == t || step.t == o
    ensures Stuck(Apply(s, step), t, o, j)
  {
    assert Pending(s.sockets[j].pc);
  }

  lemma SocketStaysStuck(s: State, step: Step, t: nat, o: nat, j: nat)
    requires Stuck(s, t, o, j) && Enabled(s, step) && Unregistered(step)
    ensures Stuck(Apply(s, step), t, o, j)
  {
    hide Apply, Enabled;
    var i, y := SocketSteps(s, step);
    assert HoldsShared(s.senders[t].pc);
  }

  lemma SendStaysStuck(s: State, step: Step, t: nat, o: nat, j: nat)
    requires Stuck(s, t, o, j) && Enabled(s, step) && InSend(step)
    ensures Stuck(Apply(s, step), t, o, j)
  {
    hide Apply, Enabled;
    var sending := SendSteps(s, step);
  }

  lemma RestStaysStuck(s: State, step: Step, t: nat, o: nat, j: nat)
    requires Locks(s) && Stuck(s, t, o, j) && Enabled(s, step)
    requires !Local(step) && !Unregistered(step) && !InSend(step)
    ensures Stuck(Apply(s, step), t, o, j)
  {
    if step.Number? || step.Take? || step.Release? {
      TransferStaysStuck(s, step, t, o, j);
    } else {
      assert forall i :: SharedOk(s, i, t);
    }
  }

  lemma TransferStaysStuck(s: State, step: Step, t: nat, o: nat, j: nat)
    requires Stuck(s, t, o, j) && Enabled(s, step) && (step.Number? || step.Take? || step.Release?)
    ensures Stuck(Apply(s, step), t, o, j)
  {
    if step.Release? {
      ReleaseSteps(s, step.t, step.woken);
      ReleaseStaysStuck(s, Apply(s, step), step.t, step.woken, t, o, j);
    }
  }

  lemma ReleaseStaysStuck(s: State, s': State, releasing: nat, woken: nat, t: nat, o: nat, j: nat)
    requires Stuck(s, t, o, j) && ReleaseChange(s, s', releasing, woken)
    ensures Stuck(s', t, o, j)
  {
  }

  /** Such a state comes about whenever a send is complete while another thread waits for its stream and
      a socket thread has asked for the lock to register or unregister. */
  lemma SendersGetStuck(s: State, t: nat, o: nat, j: nat)
    requires Reachable(s) && t < |s.senders| && Waits(s.senders[t].pc) && j < |s.sockets| && Pending(s.sockets[j].pc)
    requires AtPc(s, o, Sending) && s.senders[o].socket == s.senders[t].socket
    requires s.senders[o].written == |s.senders[o].buf|
    ensures Enabled(s, Complete(o)) && Stuck(Apply(s, Complete(o)), t, o, j)
  {
    ReachableInvariant(s);
    assert OwnerOk(s, o) && FlightOk(s, o);
  }

  /** It is the only way to get stuck: unless a sleeper belongs to such a triple, somebody moves on even under
      such a lock. */
  lemma NotStuckMoves(s: State, t: nat) returns (step: Step)
    requires Invariant(s) && AtPc(s, t, Waiting) && forall o, j :: !Stuck(s, t, o, j)
    ensures EnabledIfWritersFirst(s, step) && Forward(step)
  {
    step := SomebodyMoves(s, t);
    if step.Reenter? {
      var i := s.senders[t].socket;
      assert UseOk(s, i);
      forall j | 0 <= j < |s.sockets| ensures !Pending(s.sockets[j].pc) { assert !Stuck(s, t, step.t, j); }
    }
  }

  /** If shared lockers had to let exclusive ones go first, such a state would be a deadlock: in no
      continuation does the stream get released, or the sleeper move on. */
  lemma {:induction false} WritersFirstDeadlocks(states: seq<State>, steps: seq<Step>, k: nat, t: nat, o: nat, j: nat)
    requires |states| == |steps| + 1 && k < |states| && WritersFirst(states, steps)
    requires Invariant(states[0]) && Stuck(states[0], t, o, j)
    ensures Invariant(states[k]) && Stuck(states[k], t, o, j)
  {
    hide Apply, Enabled, Invariant, Stuck;
    if k > 0 {
      WritersFirstDeadlocks(states, steps, k - 1, t, o, j);
      assert FollowsIfWritersFirst(states, steps, k - 1);
      InvariantKept(states[k - 1], steps[k - 1]);
      StuckStays(states[k - 1], steps[k - 1], t, o, j);
    }
  }
}
