/** Every step keeps the locks and the ownership of streams.

    Most steps change one thread or one socket and little else of it. The predicates `LocalChange`,
    `SocketChange`, `SendChange`, `ReleaseChange` and `LeaveChange` name what the kinds of steps may change, so
    that each part of the invariant can be shown for a kind at a time. */
module SchedulerOwnership {
  import opened Scheduler
  import opened SchedulerInvariant

  /** Steps that change nothing but one queue thread. */
  predicate Local(step: Step) {
    step.Fetch? || step.CloseBatch? || step.StopQueue? || step.Enter? || step.Refuse? || step.Lock? || step.Pick?
    || step.Wait? || step.WakeSpuriously? || step.Relock? || step.Recheck? || step.LeaveShared? || step.Reenter?
    || step.RelockToRelease?
  }

  /** Steps that change nothing but one socket, and not its registration. */
  predicate Unregistered(step: Step) {
    step.Greet? || step.Greeted? || step.GreetFails? || step.AskToRegister? || step.LockToRegister? || step.StopServing?
    || step.CloseSocket? || step.AskToLeave? || step.LockToLeave?
  }

  /** What such a step can change of a queue thread. */
  ghost predicate LocalChange(s: State, t: nat, x: Sender)
    requires t < |s.senders|
  {
    var o := s.senders[t];
    && x.session == o.session && x.num == o.num && x.written == o.written && x.handed == o.handed
    && (x.buf == o.buf || o.pc == Batching) && (x.socket == o.socket || o.pc == Locked)
    && Owns(x.pc) == Owns(o.pc) && HasFlight(x.pc) == HasFlight(o.pc)
    && o.pc != Sending && (x.pc == Sending || x.pc == Taken ==> o.pc == Taken && x.buf == o.buf)
    && (HoldsShared(x.pc) ==> HoldsShared(o.pc) || NoExclusive(s))
    && (HoldsMutex(x.pc) ==> HoldsMutex(o.pc) || MutexFree(s, x.session))
  }

  lemma LocalSteps(s: State, step: Step) returns (t: nat, x: Sender)
    requires Enabled(s, step) && Local(step)
    ensures t == step.t && t < |s.senders|
    ensures Apply(s, step) == SetSender(s, t, x) && LocalChange(s, t, x)
  {
    hide Enabled, Apply, LocalChange;
    if step.Fetch? || step.CloseBatch? || step.StopQueue? || step.Enter? || step.Refuse? || step.Reenter? {
      t, x := QueueSteps(s, step);
    } else {
      t, x := StreamSteps(s, step);
    }
  }

  lemma QueueSteps(s: State, step: Step) returns (t: nat, x: Sender)
    requires Enabled(s, step)
    requires step.Fetch? || step.CloseBatch? || step.StopQueue? || step.Enter? || step.Refuse? || step.Reenter?
    ensures t == step.t && t < |s.senders|
    ensures Apply(s, step) == SetSender(s, t, x) && LocalChange(s, t, x)
  {
    t := step.t;
    x := Apply(s, step).senders[t];
  }

  lemma StreamSteps(s: State, step: Step) returns (t: nat, x: Sender)
    requires Enabled(s, step) && Local(step)
    requires !(step.Fetch? || step.CloseBatch? || step.StopQueue? || step.Enter? || step.Refuse? || step.Reenter?)
    ensures t == step.t && t < |s.senders|
    ensures Apply(s, step) == SetSender(s, t, x) && LocalChange(s, t, x)
  {
    t := step.t;
    x := Apply(s, step).senders[t];
  }

  /** A queue thread moved on and may have settled on a stream; nothing else. */
  predicate MoveOnly(o: Sender, x: Sender) {
    && x == o.(pc := x.pc, socket := x.socket)
    && ((x.pc == Ready || x.pc == Entered) <==> (o.pc == Ready || o.pc == Entered))
    && (x.pc != Batching && x.pc != Stopped ==> o.pc != Batching && o.pc != Stopped)
  }

  lemma MoveSteps(s: State, step: Step)
    requires Enabled(s, step) && Local(step) && !step.Fetch? && !step.CloseBatch? && !step.StopQueue?
    ensures step.t < |s.senders|
    ensures var x := Apply(s, step).senders[step.t];
            Apply(s, step) == SetSender(s, step.t, x) && MoveOnly(s.senders[step.t], x)
  {
  }

  /** What such a step can change of a socket. */
  ghost predicate SocketChange(s: State, i: nat, y: Socket)
    requires i < |s.sockets|
  {
    var o := s.sockets[i];
    && y == o.(pc := y.pc, wire := y.wire, usable := y.usable)
    && (y.usable ==> o.usable)
    && (HoldsExclusive(y.pc) ==> NoShared(s) && NoExclusive(s))
    && (Listed(y.pc) <==> Listed(o.pc)) && (o.pc == Ended ==> y.pc == Ended)
    && (y.pc == Greeting ==> o.pc == Greeting)
    && (y.wire == o.wire || (o.pc == y.pc == Greeting && o.wire <= y.wire && |y.wire| <= |y.hello|
                             && y.wire == o.wire + y.hello[|o.wire|..|y.wire|]))
    && (o.pc == Greeting && y.pc == Joining ==> |y.wire| >= |y.hello|)
    && (o.pc == Greeting ==> y.pc in {Greeting, Joining, Ended})
    && (o.pc == AskedToJoin || o.pc == AskedToLeave ==> y.pc == o.pc || HoldsExclusive(y.pc))
  }

  lemma SocketSteps(s: State, step: Step) returns (i: nat, y: Socket)
    requires Enabled(s, step) && Unregistered(step)
    ensures i == step.i && i < |s.sockets|
    ensures Apply(s, step) == SetSocket(s, i, y) && SocketChange(s, i, y)
  {
    hide Enabled, Apply, SocketChange;
    if step.Greet? || step.Greeted? || step.GreetFails? {
      i, y := GreetSteps(s, step);
    } else {
      i, y := LoopSteps(s, step);
    }
  }

  lemma GreetSteps(s: State, step: Step) returns (i: nat, y: Socket)
    requires Enabled(s, step) && (step.Greet? || step.Greeted? || step.GreetFails?)
    ensures i == step.i && i < |s.sockets|
    ensures Apply(s, step) == SetSocket(s, i, y) && SocketChange(s, i, y)
  {
    i := step.i;
    y := Apply(s, step).sockets[i];
  }

  lemma LoopSteps(s: State, step: Step) returns (i: nat, y: Socket)
    requires Enabled(s, step) && Unregistered(step) && !(step.Greet? || step.Greeted? || step.GreetFails?)
    ensures i == step.i && i < |s.sockets|
    ensures Apply(s, step) == SetSocket(s, i, y) && SocketChange(s, i, y)
  {
    i := step.i;
    y := Apply(s, step).sockets[i];
  }

  /** Steps of a send in progress. */
  predicate InSend(step: Step) {
    step.Write? || step.FailWrite? || step.Complete?
  }

  /** Such a step changes the sending thread, what was written to and completed on its stream, and what
      became of its frame; nobody's place, and no list. */
  ghost predicate SendChange(s: State, s': State, t: nat)
    requires HasSocket(s, t)
  {
    var i := s.senders[t].socket;
    && |s'.senders| == |s.senders| && s'.senders == s.senders[t := s'.senders[t]]
    && |s'.sockets| == |s.sockets| && s'.sockets == s.sockets[i := s'.sockets[i]]
    && s.senders[t].pc == Sending && s'.senders[t].pc in {Sending, Finishing}
    && s'.senders[t] == s.senders[t].(pc := s'.senders[t].pc, written := s'.senders[t].written, ok := s'.senders[t].ok)
    && (var y, o := s'.sockets[i], s.sockets[i];
        y == o.(wire := y.wire, partial := y.partial, current := y.current, usable := y.usable,
                bytesSent := y.bytesSent, done := y.done))
    && s'.sessions == s.sessions && |s'.objects| == |s.objects|
    && forall r :: 0 <= r < |s.objects| ==> s'.objects[r] == s.objects[r].(fates := s'.objects[r].fates)
  }

  lemma SendSteps(s: State, step: Step) returns (t: nat)
    requires Enabled(s, step) && InSend(step)
    ensures t == step.t && HasSocket(s, t) && SendChange(s, Apply(s, step), t)
  {
    t := step.t;
  }

  /** Releasing changes where the releasing thread and the one woken up are, and that the stream is in use. */
  ghost predicate ReleaseChange(s: State, s': State, t: nat, woken: nat) {
    && HasSocket(s, t) && woken < |s.senders| && AtPc(s, t, Relocked) && (woken == t || AtPc(s, woken, Waiting))
    && |s'.senders| == |s.senders| && |s'.sockets| == |s.sockets|
    && (forall u :: 0 <= u < |s.senders| && u != t && u != woken ==> s'.senders[u] == s.senders[u])
    && (woken != t ==> s'.senders[woken] == s.senders[woken].(pc := Woken))
    && s'.senders[t].pc in {Batching, Stopped} && s'.senders[t] == s.senders[t].(pc := s'.senders[t].pc)
    && (forall i :: 0 <= i < |s.sockets| && i != s.senders[t].socket ==> s'.sockets[i] == s.sockets[i])
    && (var y, o := s'.sockets[s.senders[t].socket], s.sockets[s.senders[t].socket];
        var size := |s.senders[t].buf|;
        y == o.(inUse := false, bytesSending := if o.bytesSending >= size then o.bytesSending - size else 0))
    && s'.sessions == s.sessions && s'.objects == s.objects
  }

  lemma ReleaseSteps(s: State, t: nat, woken: nat)
    requires Enabled(s, Release(t, woken))
    ensures ReleaseChange(s, Releasing(s, t, woken), t, woken)
  {
  }

  /** Unregistering changes where the socket thread is, and which streams and sessions are listed. */
  ghost predicate LeaveChange(s: State, s': State, i: nat) {
    && i < |s.sockets| && s'.sockets == s.sockets[i := s.sockets[i].(pc := Ended)] && s'.senders == s.senders
    && |s'.objects| == |s.objects|
    && forall r :: 0 <= r < |s.objects| ==> s'.objects[r] == s.objects[r].(streams := s'.objects[r].streams)
  }

  lemma LeaveSteps(s: State, i: nat)
    requires Enabled(s, Unregister(i))
    ensures LeaveChange(s, Left(s, i), i)
  {
  }

  // ----- locks -----

  lemma LocksAfterSender(s: State, t: nat, x: Sender)
    requires Locks(s) && t < |s.senders|
    requires HoldsShared(x.pc) ==> HoldsShared(s.senders[t].pc) || NoExclusive(s)
    requires HoldsMutex(x.pc) ==>
               (HoldsMutex(s.senders[t].pc) && x.session == s.senders[t].session) || MutexFree(s, x.session)
    ensures Locks(SetSender(s, t, x))
  {
    var s' := SetSender(s, t, x);
    forall i, u ensures SharedOk(s', i, u) { assert SharedOk(s, i, u); }
    forall i, j ensures ExclusiveOk(s', i, j) { assert ExclusiveOk(s, i, j); }
    forall u, v ensures MutexOk(s', u, v) { assert MutexOk(s, u, v); }
  }

  lemma LocksAfterSocket(s: State, i: nat, y: Socket)
    requires Locks(s) && i < |s.sockets|
    requires HoldsExclusive(y.pc) ==> HoldsExclusive(s.sockets[i].pc) || (NoShared(s) && NoExclusive(s))
    ensures Locks(SetSocket(s, i, y))
  {
    var s' := SetSocket(s, i, y);
    forall j, u ensures SharedOk(s', j, u) { assert SharedOk(s, j, u); }
    forall j, k ensures ExclusiveOk(s', j, k) { assert ExclusiveOk(s, j, k); }
    forall u, v ensures MutexOk(s', u, v) { assert MutexOk(s, u, v); }
  }

  lemma LocksAfterObjects(s: State, s': State)
    requires Locks(s) && s'.senders == s.senders && s'.sockets == s.sockets
    ensures Locks(s')
  {
    forall i, u ensures SharedOk(s', i, u) { assert SharedOk(s, i, u); }
    forall i, j ensures ExclusiveOk(s', i, j) { assert ExclusiveOk(s, i, j); }
    forall u, v ensures MutexOk(s', u, v) { assert MutexOk(s, u, v); }
  }

  lemma LocksKept(s: State, step: Step)
    requires Locks(s) && Enabled(s, step)
    ensures Locks(Apply(s, step))
  {
    hide Apply, Enabled, Locks;
    if Local(step) {
      var t, x := LocalSteps(s, step);
      LocksAfterSender(s, t, x);
    } else if Unregistered(step) {
      var i, y := SocketSteps(s, step);
      LocksAfterSocket(s, i, y);
    } else {
      LocksKeptByRest(s, step);
    }
  }

  lemma LocksKeptByRest(s: State, step: Step)
    requires Locks(s) && Enabled(s, step) && !Local(step) && !Unregistered(step)
    ensures Locks(Apply(s, step))
  {
    var s' := Apply(s, step);
    var s1 := s.(objects := s'.objects, sessions := s'.sessions);
    LocksAfterObjects(s, s1);
    match step {
      case Number(t, _) => LocksAfterSender(s1, t, s'.senders[t]);
      case Take(t) => LocksAfterTransfer(s1, t, s'.senders[t], s'.sockets[s.senders[t].socket]);
      case Write(t, _) => LocksAfterTransfer(s1, t, s'.senders[t], s'.sockets[s.senders[t].socket]);
      case FailWrite(t) => LocksAfterTransfer(s1, t, s'.senders[t], s'.sockets[s.senders[t].socket]);
      case Complete(t) => LocksAfterTransfer(s1, t, s'.senders[t], s'.sockets[s.senders[t].socket]);
      case Release(t, woken) => LocksKeptByRelease(s, t, woken);
      case Register(i) => LocksAfterSocket(s1, i, s'.sockets[i]);
      case Unregister(i) => LocksAfterSocket(s1, i, s'.sockets[i]);
      case _ =>
    }
  }

  lemma LocksAfterTransfer(s: State, t: nat, x: Sender, y: Socket)
    requires Locks(s) && HasSocket(s, t)
    requires HoldsShared(x.pc) ==> HoldsShared(s.senders[t].pc)
    requires HoldsMutex(x.pc) ==> HoldsMutex(s.senders[t].pc) && x.session == s.senders[t].session
    requires y.pc == s.sockets[s.senders[t].socket].pc
    ensures Locks(SetSender(SetSocket(s, s.senders[t].socket, y), t, x))
  {
    LocksAfterSocket(s, s.senders[t].socket, y);
    LocksAfterSender(SetSocket(s, s.senders[t].socket, y), t, x);
  }

  lemma LocksKeptByRelease(s: State, t: nat, woken: nat)
    requires Locks(s) && Enabled(s, Release(t, woken))
    ensures Locks(Releasing(s, t, woken))
  {
    var s', i := Releasing(s, t, woken), s.senders[t].socket;
    LocksAfterSocket(s, i, s'.sockets[i]);
    var s1 := SetSocket(s, i, s'.sockets[i]);
    LocksAfterSender(s1, woken, s'.senders[woken]);
    var s2 := SetSender(s1, woken, s'.senders[woken]);
    LocksAfterSender(s2, t, s'.senders[t]);
  }

  // ----- ownership -----

  lemma OwnershipAfterSender(s: State, t: nat, x: Sender)
    requires Ownership(s) && t < |s.senders|
    requires Owns(x.pc) == Owns(s.senders[t].pc)
    requires Owns(x.pc) ==>
               var o := s.senders[t]; x.socket == o.socket && |x.buf| == |o.buf| && x.session == o.session
    ensures Ownership(SetSender(s, t, x))
  {
    var s' := SetSender(s, t, x);
    forall u ensures OwnerOk(s', u) { assert OwnerOk(s, u); }
    forall i ensures UseOk(s', i) { assert UseOk(s, i); }
  }

  lemma OwnershipAfterSocket(s: State, i: nat, y: Socket)
    requires Ownership(s) && i < |s.sockets|
    requires var o := s.sockets[i];
             && y.inUse == o.inUse && y.owner == o.owner && y.bytesSending == o.bytesSending
             && y.bytesSent == TotalSent(y.done)
             && (y.inUse ==> y.session == o.session && (Listed(y.pc) || y.pc == Ended))
    ensures Ownership(SetSocket(s, i, y))
  {
    var s' := SetSocket(s, i, y);
    forall u ensures OwnerOk(s', u) { assert OwnerOk(s, u); }
    forall j ensures UseOk(s', j) { assert UseOk(s, j); }
  }

  lemma OwnershipAfterObjects(s: State, s': State)
    requires Ownership(s) && s'.senders == s.senders && s'.sockets == s.sockets
    ensures Ownership(s')
  {
    forall u ensures OwnerOk(s', u) { assert OwnerOk(s, u); }
    forall j ensures UseOk(s', j) { assert UseOk(s, j); }
  }

  lemma OwnershipKept(s: State, step: Step)
    requires Ownership(s) && Choices(s) && Registry(s) && Enabled(s, step)
    ensures Ownership(Apply(s, step))
  {
    hide Apply, Enabled, Choices, Registry;
    if Local(step) {
      var t, x := LocalSteps(s, step);
      OwnershipAfterSender(s, t, x);
    } else if Unregistered(step) {
      var i, y := SocketSteps(s, step);
      assert UseOk(s, i);
      OwnershipAfterSocket(s, i, y);
    } else {
      OwnershipKeptByRest(s, step);
    }
  }

  lemma OwnershipKeptByRest(s: State, step: Step)
    requires Ownership(s) && Choices(s) && Registry(s) && Enabled(s, step) && !Local(step) && !Unregistered(step)
    ensures Ownership(Apply(s, step))
  {
    match step {
      case Number(t, id) =>
        var s' := Apply(s, step);
        OwnershipAfterObjects(s, s.(objects := s'.objects));
        OwnershipAfterSender(s.(objects := s'.objects), t, s'.senders[t]);
      case Take(t) => OwnershipKeptByTake(s, t);
      case Write(t, n) => OwnershipKeptByWrite(s, t, n);
      case FailWrite(t) => OwnershipKeptByFail(s, t);
      case Complete(t) => OwnershipKeptByComplete(s, t);
      case Release(t, woken) =>
        ReleaseSteps(s, t, woken);
        OwnershipKeptByRelease(s, Apply(s, step), t, woken);
      case Register(i) => OwnershipAfterRegistration(s, Joined(s, i), i);
      case Unregister(i) => OwnershipAfterRegistration(s, Left(s, i), i);
      case _ =>
    }
  }

  lemma OwnershipAfterRegistration(s: State, s': State, i: nat)
    requires Ownership(s) && (SocketAt(s, i, Registering) || SocketAt(s, i, Unregistering))
    requires s'.senders == s.senders && |s'.sockets| == |s.sockets| && s'.sockets == s.sockets[i := s'.sockets[i]]
    requires var y, o := s'.sockets[i], s.sockets[i];
             y == o.(pc := y.pc, session := y.session, usable := y.usable) && (Listed(y.pc) || y.pc == Ended)
             && (o.pc == Unregistering ==> y.session == o.session)
    ensures Ownership(s')
  {
    assert UseOk(s, i);
    var s1 := s.(objects := s'.objects, sessions := s'.sessions);
    OwnershipAfterObjects(s, s1);
    OwnershipAfterSocket(s1, i, s'.sockets[i]);
  }

  lemma OwnershipKeptByTake(s: State, t: nat)
    requires Ownership(s) && Choices(s) && Registry(s) && Enabled(s, Take(t))
    ensures Ownership(Taking(s, t))
  {
    var s' := Taking(s, t);
    assert ChoiceOk(s, t);
    assert StreamOk(s, s.senders[t].session, s.senders[t].socket);
    assert UseOk(s, s.senders[t].socket);
    forall u ensures OwnerOk(s', u) { assert OwnerOk(s, u); }
    forall i ensures UseOk(s', i) { assert UseOk(s, i); }
  }

  lemma OwnershipKeptByWrite(s: State, t: nat, n: nat)
    requires Ownership(s) && Enabled(s, Write(t, n))
    ensures Ownership(Writing(s, t, n))
  {
    var s' := Writing(s, t, n);
    var i := s.senders[t].socket;
    assert OwnerOk(s, t) && UseOk(s, i);
    OwnershipAfterSocket(s, i, s'.sockets[i]);
    OwnershipAfterSender(SetSocket(s, i, s'.sockets[i]), t, s'.senders[t]);
  }

  lemma OwnershipKeptByFail(s: State, t: nat)
    requires Ownership(s) && Enabled(s, FailWrite(t))
    ensures Ownership(Failing(s, t))
  {
    var s', i := Failing(s, t), s.senders[t].socket;
    assert OwnerOk(s, t) && UseOk(s, i);
    var s1 := s.(objects := s'.objects);
    OwnershipAfterObjects(s, s1);
    OwnershipAfterSocket(s1, i, s'.sockets[i]);
    OwnershipAfterSender(SetSocket(s1, i, s'.sockets[i]), t, s'.senders[t]);
  }

  lemma TotalSentSnoc(done: seq<Sent>, d: Sent)
    ensures TotalSent(done + [d]) == TotalSent(done) + |d.frame|
  {
    assert (done + [d])[..|done|] == done;
  }

  lemma OwnershipKeptByComplete(s: State, t: nat)
    requires Ownership(s) && Enabled(s, Complete(t))
    ensures Ownership(Completing(s, t))
  {
    var s', i := Completing(s, t), s.senders[t].socket;
    assert OwnerOk(s, t) && UseOk(s, i);
    TotalSentSnoc(s.sockets[i].done, Sent(s.senders[t].num, s.senders[t].buf));
    var s1 := s.(objects := s'.objects);
    OwnershipAfterObjects(s, s1);
    OwnershipAfterSocket(s1, i, s'.sockets[i]);
    OwnershipAfterSender(SetSocket(s1, i, s'.sockets[i]), t, s'.senders[t]);
  }

  lemma OwnershipKeptByRelease(s: State, s': State, t: nat, woken: nat)
    requires Ownership(s) && ReleaseChange(s, s', t, woken)
    ensures Ownership(s')
  {
    assert OwnerOk(s, t);
    forall u ensures OwnerOk(s', u) { assert OwnerOk(s, u); }
    forall i ensures UseOk(s', i) { assert UseOk(s, i); }
  }
}
