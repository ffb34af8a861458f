/** Which way a thread goes, and why. */
module SchedulerOutcomes {
  import opened FrameFormat
  import opened Scheduler
  import opened SchedulerInvariant
  import opened SchedulerOwnership
  import opened SchedulerSafety

  // ----- which stream -----

  /** Whoever has picked a stream has the first of its session's list that is not in use, and nobody has come
      before it in the meantime. */
  lemma TakesFirstFree(s: State, t: nat) returns (k: nat)
    requires Reachable(s) && AtPc(s, t, Picked)
    ensures HasSession(s, t)
    ensures var streams := s.objects[s.senders[t].session].streams;
            && k < |streams| && streams[k] == s.senders[t].socket && !InUse(s, streams[k])
            && forall j :: 0 <= j < k ==> InUse(s, streams[j])
  {
    ReachableInvariant(s);
    assert PickOk(s, t);
    k :| FreeAt(s, s.senders[t].session, k) && s.objects[s.senders[t].session].streams[k] == s.senders[t].socket;
  }

  /** A thread that looks through the list for a stream settles on the first free one if there is one, and
      goes to sleep for the first of all only if there is none. */
  lemma LookingSettles(s: State, t: nat, step: Step)
    requires Reachable(s) && AtPc(s, t, Locked) && Enabled(s, step) && ActsFor(step, t)
    ensures HasSession(s, t) && t < |Apply(s, step).senders|
    ensures var r, x := s.senders[t].session, Apply(s, step).senders[t];
            if exists k: nat :: FreeAt(s, r, k) then x.pc == Picked && IsFirstFree(s, r, x.socket)
            else x.pc == Waiting && s.objects[r].streams != [] && x.socket == s.objects[r].streams[0]
  {
    ReachableInvariant(s);
    assert ChoiceOk(s, t);
    if step.Pick? {
      assert FreeAt(s, s.senders[t].session, step.k);
    }
  }

  /** A thread that looks for a session finds the one in the map if any socket is registered, and its frame
      is refused exactly if none is. */
  lemma RefusedWithoutStreams(s: State, t: nat, step: Step)
    requires Reachable(s) && AtPc(s, t, Entered)
    ensures (exists i: nat :: RegisteredAt(s, i)) <==> exists id :: Enabled(s, Number(t, id))
    ensures (forall i: nat :: !RegisteredAt(s, i)) <==> Enabled(s, Refuse(t))
    ensures Enabled(s, step) && ActsFor(step, t) ==> step == Refuse(t) || (step.Number? && step.id in s.sessions)
  {
    LooksAround(s, t);
    if Enabled(s, step) && ActsFor(step, t) {
      EnteredMoves(s, t, step);
    }
    if i: nat :| RegisteredAt(s, i) {
      var id :| id in s.sessions;
      assert Enabled(s, Number(t, id));
    }
  }

  lemma EnteredMoves(s: State, t: nat, step: Step)
    requires AtPc(s, t, Entered) && Enabled(s, step) && ActsFor(step, t)
    ensures step == Refuse(t) || (step.Number? && step.id in s.sessions)
  {
  }

  lemma LooksAround(s: State, t: nat)
    requires Reachable(s) && AtPc(s, t, Entered)
    ensures s.sessions == map[] <==> forall i: nat :: !RegisteredAt(s, i)
    ensures forall id :: id in s.sessions ==> s.sessions[id] < |s.objects|
    ensures |s.senders[t].buf| >= HEADER_SIZE
  {
    ReachableInvariant(s);
    SessionsHaveSockets(s);
    QueueInRun(s, t);
    forall id | id in s.sessions ensures s.sessions[id] < |s.objects| { assert InMapOk(s, id); }
  }

  lemma SessionsHaveSockets(s: State)
    requires Registry(s)
    ensures s.sessions == map[] <==> forall i: nat :: !RegisteredAt(s, i)
  {
    if id :| id in s.sessions {
      var i := SomeoneListed(s, id);
      assert RegisteredAt(s, i);
    }
    if i: nat :| RegisteredAt(s, i) {
      assert ListedOk(s, i) && ObjectOk(s, s.sockets[i].session);
    }
  }

  ghost predicate RegisteredAt(s: State, i: nat) {
    i < |s.sockets| && Listed(s.sockets[i].pc)
  }

  // ----- how a send ended -----

  /** The send is over, and the stream not given back yet. */
  predicate Returning(pc: SenderPc) {
    pc in {Finishing, Reentered, Relocked}
  }

  /** A thread remembers how the send of its frame ended. */
  ghost predicate OutcomeOk(s: State, t: nat) {
    t < |s.senders| && Returning(s.senders[t].pc) ==>
      var x := s.senders[t];
      && x.session < |s.objects| && 1 <= x.num <= |s.objects[x.session].fates|
      && var fate := s.objects[x.session].fates[x.num - 1];
      if x.ok then fate.Completed? else fate == Lost
  }

  lemma OutcomeKept(s: State, step: Step, t: nat)
    requires Invariant(s) && OutcomeOk(s, t) && Enabled(s, step)
    ensures OutcomeOk(Apply(s, step), t)
  {
    hide Apply, Enabled, Invariant;
    if InSend(step) && step.t == t {
      SendDecides(s, step);
    } else {
      var s' := Apply(s, step);
      StepExtends(s, step);
      if t < |s'.senders| && Returning(s'.senders[t].pc) {
        KeepsReturning(s, step, t);
        assert LogExtends(s, s', s.senders[t].session);
      }
    }
  }

  lemma SendDecides(s: State, step: Step)
    requires Invariant(s) && Enabled(s, step) && InSend(step)
    ensures OutcomeOk(Apply(s, step), step.t)
  {
    assert FlightOk(s, step.t);
  }

  lemma KeepsReturning(s: State, step: Step, t: nat)
    requires Enabled(s, step) && !(InSend(step) && step.t == t)
    requires t < |Apply(s, step).senders| && Returning(Apply(s, step).senders[t].pc)
    ensures t < |s.senders| && Returning(s.senders[t].pc)
    ensures Apply(s, step).senders[t] == s.senders[t].(pc := Apply(s, step).senders[t].pc)
  {
    hide Apply, Enabled;
    if Local(step) {
      LocalReturning(s, step, t);
    } else if Unregistered(step) {
      var i, y := SocketSteps(s, step);
    } else if InSend(step) {
      var u := SendSteps(s, step);
    } else {
      RestReturning(s, step, t);
    }
  }

  lemma LocalReturning(s: State, step: Step, t: nat)
    requires Enabled(s, step) && Local(step)
    requires t < |Apply(s, step).senders| && Returning(Apply(s, step).senders[t].pc)
    ensures t < |s.senders| && Returning(s.senders[t].pc)
    ensures Apply(s, step).senders[t] == s.senders[t].(pc := Apply(s, step).senders[t].pc)
  {
  }

  lemma RestReturning(s: State, step: Step, t: nat)
    requires Enabled(s, step) && !Local(step) && !Unregistered(step) && !InSend(step)
    requires t < |Apply(s, step).senders| && Returning(Apply(s, step).senders[t].pc)
    ensures t < |s.senders| && Returning(s.senders[t].pc)
    ensures Apply(s, step).senders[t] == s.senders[t]
  {
  }

  lemma {:induction false} OutcomeInRun(states: seq<State>, steps: seq<Step>, k: nat, t: nat)
    requires Run(states, steps) && k < |states|
    ensures OutcomeOk(states[k], t)
  {
    hide Invariant, Apply, Enabled;
    if k > 0 {
      OutcomeInRun(states, steps, k - 1, t);
      EveryRunKeepsInvariant(states, steps, k - 1);
      assert Follows(states, steps, k - 1);
      OutcomeKept(states[k - 1], steps[k - 1], t);
    } else {
      NobodyReturns(states[0], t);
    }
  }

  lemma NobodyReturns(s: State, t: nat)
    requires Initial(s)
    ensures OutcomeOk(s, t)
  {
    assert t < |s.senders| ==> FreshSender(s.senders[t]);
  }

  /** Whoever gives a stream back goes on to fill the next frame if its frame was completed, and has ended if
      it was lost: the exception of a failed send leaves the loop. The stream is free again either way. */
  lemma FailedSendEndsThread(s: State, t: nat, woken: nat)
    requires Reachable(s) && Enabled(s, Release(t, woken))
    ensures var x, s' := s.senders[t], Apply(s, Release(t, woken));
            && t < |s'.senders| && x.session < |s.objects| && 1 <= x.num <= |s.objects[x.session].fates|
            && !InUse(s', x.socket)
            && var fate := s.objects[x.session].fates[x.num - 1];
            && (s'.senders[t].pc == Batching <==> fate.Completed?)
            && (s'.senders[t].pc == Stopped <==> fate == Lost)
  {
    hide Apply;
    var states, steps :| Run(states, steps) && states[|steps|] == s;
    OutcomeInRun(states, steps, |steps|, t);
    ReleaseGoes(s, t, woken);
  }

  lemma ReleaseGoes(s: State, t: nat, woken: nat)
    requires Enabled(s, Release(t, woken))
    ensures var s' := Apply(s, Release(t, woken));
            && t < |s'.senders| && !InUse(s', s.senders[t].socket)
            && s'.senders[t].pc == if s.senders[t].ok then Batching else Stopped
  {
  }

  /** A thread that has ended does nothing any more. */
  lemma StoppedForGood(s: State, step: Step, t: nat)
    requires Enabled(s, step) && AtPc(s, t, Stopped)
    ensures !ActsFor(step, t) && t < |Apply(s, step).senders| && Apply(s, step).senders[t] == s.senders[t]
  {
    hide Apply, Enabled;
    if Local(step) {
      var u, x := LocalSteps(s, step);
      NotStopped(s, step);
    } else if Unregistered(step) {
      var i, y := SocketSteps(s, step);
    } else if InSend(step) {
      var u := SendSteps(s, step);
    } else {
      RestWhileStopped(s, step, t);
    }
  }

  lemma NotStopped(s: State, step: Step)
    requires Enabled(s, step) && Local(step)
    ensures !AtPc(s, step.t, Stopped)
  {
  }

  lemma RestWhileStopped(s: State, step: Step, t: nat)
    requires Enabled(s, step) && AtPc(s, t, Stopped) && !Local(step) && !Unregistered(step) && !InSend(step)
    ensures !ActsFor(step, t) && t < |Apply(s, step).senders| && Apply(s, step).senders[t] == s.senders[t]
  {
  }

  // ----- leaving -----

  predicate HasClosed(pc: SocketPc) {
    pc in {Leaving, AskedToLeave, Unregistering, Ended}
  }

  ghost predicate ClosedOk(s: State, i: nat) {
    i < |s.sockets| && HasClosed(s.sockets[i].pc) ==> !s.sockets[i].usable
  }

  lemma ClosedKept(s: State, step: Step, i: nat)
    requires ClosedOk(s, i) && Enabled(s, step)
    ensures ClosedOk(Apply(s, step), i)
  {
    if step.Register? || step.Unregister? {
      RegistryCloses(s, step, i);
    } else if OfSocket(step) {
      SocketCloses(s, step, i);
    } else {
      SendersLeaveClosed(s, step, i);
    }
  }

  lemma SocketCloses(s: State, step: Step, i: nat)
    requires ClosedOk(s, i) && Enabled(s, step) && OfSocket(step) && !step.Register? && !step.Unregister?
    ensures ClosedOk(Apply(s, step), i)
  {
  }

  lemma RegistryCloses(s: State, step: Step, i: nat)
    requires ClosedOk(s, i) && Enabled(s, step) && (step.Register? || step.Unregister?)
    ensures ClosedOk(Apply(s, step), i)
  {
  }

  lemma SendersLeaveClosed(s: State, step: Step, i: nat)
    requires ClosedOk(s, i) && Enabled(s, step) && !OfSocket(step)
    ensures ClosedOk(Apply(s, step), i)
  {
    hide Apply, Enabled;
    if Local(step) {
      var t, x := LocalSteps(s, step);
    } else {
      TransfersLeaveClosed(s, step, i);
    }
  }

  lemma TransfersLeaveClosed(s: State, step: Step, i: nat)
    requires ClosedOk(s, i) && Enabled(s, step) && !OfSocket(step) && !Local(step)
    ensures ClosedOk(Apply(s, step), i)
  {
  }

  lemma {:induction false} ClosedInRun(states: seq<State>, steps: seq<Step>, k: nat, i: nat)
    requires Run(states, steps) && k < |states|
    ensures ClosedOk(states[k], i)
  {
    hide Apply, Enabled;
    if k > 0 {
      ClosedInRun(states, steps, k - 1, i);
      assert Follows(states, steps, k - 1);
      ClosedKept(states[k - 1], steps[k - 1], i);
    } else {
      assert i < |states[0].sockets| ==> FreshSocket(states[0].sockets[i]);
    }
  }

  /** From the moment its thread has closed it nothing can be written to a stream, although it is still listed
      for a while and some thread may still own it. */
  lemma NoWriteAfterClose(s: State, i: nat, t: nat, n: nat)
    requires Reachable(s) && i < |s.sockets| && HasClosed(s.sockets[i].pc)
    requires t < |s.senders| && s.senders[t].socket == i
    ensures !Enabled(s, Write(t, n))
  {
    var states, steps :| Run(states, steps) && states[|steps|] == s;
    ClosedInRun(states, steps, |steps|, i);
  }

  lemma {:induction false} WithoutAt(streams: seq<nat>, i: nat) returns (k: nat)
    requires i in streams && NoRepeats(streams)
    ensures k < |streams| && streams[k] == i && Without(streams, i) == streams[..k] + streams[k + 1..]
  {
    if streams[0] == i {
      k := 0;
      WithoutNone(streams[1..], i);
    } else {
      assert forall j :: 0 <= j < |streams[1..]| ==> streams[1..][j] == streams[j + 1];
      k := WithoutAt(streams[1..], i);
      assert streams[..k + 1] == [streams[0]] + streams[1..][..k] && streams[k + 2..] == streams[1..][k + 1..];
      k := k + 1;
    }
  }

  lemma {:induction false} WithoutNone(streams: seq<nat>, i: nat)
    requires i !in streams
    ensures Without(streams, i) == streams
  {
    if streams != [] {
      WithoutNone(streams[1..], i);
    }
  }

  /** Unregistering takes one stream out of its session's list and leaves the others as they are, in order. */
  lemma LeavesOthersInOrder(s: State, i: nat) returns (k: nat)
    requires Reachable(s) && SocketAt(s, i, Unregistering)
    ensures Enabled(s, Unregister(i))
    ensures var r := s.sockets[i].session; var s' := Apply(s, Unregister(i));
            && r < |s.objects| == |s'.objects| && k < |s.objects[r].streams| && s.objects[r].streams[k] == i
            && s'.objects[r].streams == s.objects[r].streams[..k] + s.objects[r].streams[k + 1..]
            && forall q :: 0 <= q < |s.objects| && q != r ==> s'.objects[q] == s.objects[q]
  {
    ReachableInvariant(s);
    ListsServe(s, 0, i);
    assert ListedOk(s, i) && ObjectOk(s, s.sockets[i].session);
    k := WithoutAt(s.objects[s.sockets[i].session].streams, i);
  }
}
