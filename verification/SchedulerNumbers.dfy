/** Every step keeps the numbering: each number once, each accounted for.

    What the numbering speaks of is four things: the logs with their fates, the frames in flight, the
    frames completed, and the queues. A step is shown to leave them the same, or, if it is one of the four
    that do touch them (numbering, completing, failing, registering), to change them in step. */
module SchedulerNumbers {
  import opened FrameFormat
  import opened Scheduler
  import opened SchedulerInvariant
  import opened SchedulerOwnership

  /** Same logs, same fates. */
  ghost predicate SameLogs(s: State, s': State) {
    && |s'.objects| == |s.objects|
    && forall r :: 0 <= r < |s.objects| ==>
         s'.objects[r].log == s.objects[r].log && s'.objects[r].fates == s.objects[r].fates
         && s'.objects[r].nextSeqNum == s.objects[r].nextSeqNum
  }

  /** Same frames in flight. */
  ghost predicate SameFlights(s: State, s': State) {
    && |s'.senders| == |s.senders|
    && forall t :: 0 <= t < |s.senders| ==>
         var x, o := s'.senders[t], s.senders[t];
         HasFlight(x.pc) == HasFlight(o.pc)
         && (HasFlight(x.pc) ==> x.session == o.session && x.num == o.num && x.buf == o.buf)
  }

  /** Same frames completed. */
  ghost predicate SameDone(s: State, s': State) {
    && |s'.sockets| == |s.sockets|
    && forall i :: 0 <= i < |s.sockets| ==>
         var y, o := s'.sockets[i], s.sockets[i];
         y.done == o.done && (o.done != [] ==> y.session == o.session)
         && (Listed(o.pc) || o.pc == Ended ==> Listed(y.pc) || y.pc == Ended)
  }

  /** Nothing was read, nothing numbered, no frame in hand changed. */
  ghost predicate SameQueues(s: State, s': State) {
    && |s'.senders| == |s.senders|
    && forall t :: 0 <= t < |s.senders| ==>
         var x, o := s'.senders[t], s.senders[t];
         x.read == o.read && x.pending == o.pending && x.handed == o.handed && x.buf == o.buf
         && ((x.pc == Ready || x.pc == Entered) <==> (o.pc == Ready || o.pc == Entered))
         && (x.pc != Batching && x.pc != Stopped ==> o.pc != Batching && o.pc != Stopped)
  }

  lemma NumbersKeptIfSame(s: State, s': State)
    requires Numbers(s) && SameLogs(s, s') && SameFlights(s, s') && SameDone(s, s')
    ensures Numbers(s')
  {
    forall r ensures CounterOk(s', r) { assert CounterOk(s, r); }
    forall r, n ensures NumberOk(s', r, n) { assert NumberOk(s, r, n); }
    forall t ensures FlightOk(s', t) { assert FlightOk(s, t); }
    forall i, k ensures DoneOk(s', i, k) { assert DoneOk(s, i, k); }
  }

  lemma NumbersKept(s: State, step: Step)
    requires Numbers(s) && Ownership(s) && Queues(s) && Enabled(s, step)
    ensures Numbers(Apply(s, step))
  {
    if Local(step) {
      NumbersKeptByLocal(s, step);
    } else if Unregistered(step) {
      NumbersKeptBySocket(s, step);
    } else if step.Take? || step.Write? || step.Release? {
      NumbersKeptByTransfer(s, step);
    } else if step.Unregister? {
      NumbersKeptByUnregister(s, step);
    } else {
      NumbersKeptByRest(s, step);
    }
  }

  lemma NumbersKeptByRest(s: State, step: Step)
    requires Numbers(s) && Ownership(s) && Queues(s) && Enabled(s, step)
    requires step.Number? || step.FailWrite? || step.Complete? || step.Register?
    ensures Numbers(Apply(s, step))
  {
    match step {
      case Number(t, id) => NumbersKeptByNumber(s, t, id);
      case FailWrite(t) => NumbersKeptByFail(s, t);
      case Complete(t) => NumbersKeptByComplete(s, t);
      case Register(i) => NumbersKeptByRegister(s, i);
    }
  }

  lemma NumbersKeptByLocal(s: State, step: Step)
    requires Numbers(s) && Enabled(s, step) && Local(step)
    ensures Numbers(Apply(s, step))
  {
    hide Apply, Enabled, Numbers;
    var t, x := LocalSteps(s, step);
    NumbersKeptIfSame(s, Apply(s, step));
  }

  lemma NumbersKeptBySocket(s: State, step: Step)
    requires Numbers(s) && Enabled(s, step) && Unregistered(step)
    ensures Numbers(Apply(s, step))
  {
    hide Apply, Enabled, Numbers;
    var i, y := SocketSteps(s, step);
    NumbersKeptIfSame(s, Apply(s, step));
  }

  lemma NumbersKeptByUnregister(s: State, step: Step)
    requires Numbers(s) && Enabled(s, step) && step.Unregister?
    ensures Numbers(Apply(s, step))
  {
    NumbersKeptIfSame(s, Apply(s, step));
  }

  lemma NumbersKeptByTransfer(s: State, step: Step)
    requires Numbers(s) && Enabled(s, step) && (step.Take? || step.Write? || step.Release?)
    ensures Numbers(Apply(s, step))
  {
    match step {
      case Take(t) => TakeKeepsBooks(s, t);
      case Write(t, n) => WriteKeepsBooks(s, t, n);
      case Release(t, woken) =>
        ReleaseSteps(s, t, woken);
        ReleaseKeepsBooks(s, Apply(s, step), t, woken);
    }
    NumbersKeptIfSame(s, Apply(s, step));
  }

  lemma TakeKeepsBooks(s: State, t: nat)
    requires Enabled(s, Take(t))
    ensures var s' := Taking(s, t); SameLogs(s, s') && SameFlights(s, s') && SameDone(s, s') && SameQueues(s, s')
  {
  }

  lemma WriteKeepsBooks(s: State, t: nat, n: nat)
    requires Enabled(s, Write(t, n))
    ensures var s' := Writing(s, t, n); SameLogs(s, s') && SameFlights(s, s') && SameDone(s, s')
  {
  }

  lemma ReleaseKeepsBooks(s: State, s': State, t: nat, woken: nat)
    requires ReleaseChange(s, s', t, woken)
    ensures SameLogs(s, s') && SameFlights(s, s') && SameDone(s, s') && SameQueues(s, s')
  {
  }

  lemma NumbersKeptByRegister(s: State, i: nat)
    requires Numbers(s) && Enabled(s, Register(i))
    ensures Numbers(Joined(s, i))
  {
    var s' := Joined(s, i);
    RegisteredFates(s, i);
    forall r ensures CounterOk(s', r) { assert CounterOk(s, r); }
    forall t ensures FlightOk(s', t) { assert FlightOk(s, t); }
  }

  lemma RegisteredFates(s: State, i: nat)
    requires Numbers(s) && Enabled(s, Register(i))
    ensures forall r, n :: NumberOk(Joined(s, i), r, n)
    ensures forall j, k :: DoneOk(Joined(s, i), j, k)
  {
    var s' := Joined(s, i);
    assert s.sockets[i].done == [] by { assert DoneOk(s, i, 0); }
    forall r, n ensures NumberOk(s', r, n) { assert NumberOk(s, r, n); }
    forall j, k ensures DoneOk(s', j, k) { assert DoneOk(s, j, k); }
  }

  lemma NumbersKeptByNumber(s: State, t: nat, id: SessionId)
    requires Numbers(s) && Queues(s) && Enabled(s, Number(t, id))
    ensures Numbers(Numbering(s, t, s.sessions[id]))
  {
    var s' := Numbering(s, t, s.sessions[id]);
    assert CounterOk(s, s.sessions[id]);
    NumberedFates(s, t, id);
    forall r ensures CounterOk(s', r) { assert CounterOk(s, r); }
    forall u ensures FlightOk(s', u) { assert FlightOk(s, u); }
    forall j, k ensures DoneOk(s', j, k) { assert DoneOk(s, j, k); }
  }

  lemma NumberedFates(s: State, t: nat, id: SessionId)
    requires Numbers(s) && Queues(s) && Enabled(s, Number(t, id))
    ensures forall r, n :: NumberOk(Numbering(s, t, s.sessions[id]), r, n)
  {
    var here := s.sessions[id];
    var s' := Numbering(s, t, here);
    assert CounterOk(s, here) && QueueOk(s, t);
    StampKeepsFrame(s.senders[t].buf, s.objects[here].nextSeqNum);
    forall r, n ensures NumberOk(s', r, n) { assert NumberOk(s, r, n); }
  }

  lemma NumbersKeptByFail(s: State, t: nat)
    requires Numbers(s) && Enabled(s, FailWrite(t))
    ensures Numbers(Failing(s, t))
  {
    var s' := Failing(s, t);
    FailedFates(s, t);
    assert FlightOk(s, t);
    forall r ensures CounterOk(s', r) { assert CounterOk(s, r); }
    FailedPlaces(s, t);
    forall u ensures FlightOk(s', u) { assert FlightOk(s, u); }
  }

  lemma FailedPlaces(s: State, t: nat)
    requires Numbers(s) && Enabled(s, FailWrite(t))
    ensures forall j, k :: DoneOk(Failing(s, t), j, k)
  {
    var s' := Failing(s, t);
    assert FlightOk(s, t);
    forall j, k ensures DoneOk(s', j, k) { assert DoneOk(s, j, k); }
  }

  lemma FailedFates(s: State, t: nat)
    requires Numbers(s) && Enabled(s, FailWrite(t))
    ensures forall r, n :: NumberOk(Failing(s, t), r, n)
  {
    var s' := Failing(s, t);
    assert FlightOk(s, t);
    forall r, n ensures NumberOk(s', r, n) { assert NumberOk(s, r, n); }
  }

  lemma NumbersKeptByComplete(s: State, t: nat)
    requires Numbers(s) && Ownership(s) && Enabled(s, Complete(t))
    ensures Numbers(Completing(s, t))
  {
    var s' := Completing(s, t);
    CompletedFates(s, t);
    CompletedPlaces(s, t);
    forall r ensures CounterOk(s', r) { assert CounterOk(s, r); }
    forall u ensures FlightOk(s', u) { assert FlightOk(s, u) && FlightOk(s, t); }
  }

  lemma CompletedFates(s: State, t: nat)
    requires Numbers(s) && Ownership(s) && Enabled(s, Complete(t))
    ensures forall r, n :: NumberOk(Completing(s, t), r, n)
  {
    var s' := Completing(s, t);
    assert FlightOk(s, t) && OwnerOk(s, t);
    forall r, n ensures NumberOk(s', r, n) { assert NumberOk(s, r, n); }
  }

  lemma CompletedPlaces(s: State, t: nat)
    requires Numbers(s) && Ownership(s) && Enabled(s, Complete(t))
    ensures forall j, k :: DoneOk(Completing(s, t), j, k)
  {
    var s' := Completing(s, t);
    assert FlightOk(s, t) && OwnerOk(s, t) && UseOk(s, s.senders[t].socket);
    forall j, k ensures DoneOk(s', j, k) { assert DoneOk(s, j, k); }
  }
}
