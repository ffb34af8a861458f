/** Every step keeps the shape of what is on the sockets: frames never interleave.

    A socket has sent its greeting, then the frames completed on it, then a part of one frame. The part
    belongs to the thread that owns the stream, and what that thread has still to write is the remainder of
    the same frame; after a failed write the part stays what it is. Only a write adds to it, only completing
    a frame moves it among the completed ones, and only the greeting thread touches it before. */
module SchedulerWires {
  import opened Lists
  import opened Scheduler
  import opened SchedulerInvariant
  import opened SchedulerOwnership

  lemma WiresKept(s: State, step: Step)
    requires Wires(s) && Registry(s) && Choices(s) && Ownership(s) && Numbers(s) && Queues(s) && Enabled(s, step)
    ensures Wires(Apply(s, step))
  {
    if Local(step) {
      var t, x := LocalSteps(s, step);
      WiresAfterSender(s, t, x);
    } else if Unregistered(step) {
      var i, y := SocketSteps(s, step);
      WiresAfterSocket(s, i, y);
    } else if InSend(step) {
      WiresKeptBySend(s, step);
    } else {
      WiresKeptByRest(s, step);
    }
  }

  lemma WiresKeptBySend(s: State, step: Step)
    requires Wires(s) && Ownership(s) && Numbers(s) && Queues(s) && Enabled(s, step) && InSend(step)
    ensures Wires(Apply(s, step))
  {
    match step {
      case Write(t, n) => WiresKeptByWrite(s, t, n);
      case FailWrite(t) => WiresKeptByFail(s, t);
      case Complete(t) => WiresKeptByComplete(s, t);
    }
  }

  lemma WiresKeptByRest(s: State, step: Step)
    requires Wires(s) && Registry(s) && Choices(s) && Ownership(s) && Enabled(s, step)
    requires !Local(step) && !Unregistered(step) && !InSend(step)
    ensures Wires(Apply(s, step))
  {
    match step {
      case Number(t, id) => WiresKeptByNumber(s, t, id);
      case Take(t) => WiresKeptByTake(s, t);
      case Release(t, woken) =>
        ReleaseSteps(s, t, woken);
        WiresKeptByRelease(s, Apply(s, step), t, woken);
      case Register(i) => WiresKeptByRegister(s, i);
      case Unregister(i) => WiresKeptByUnregister(s, i);
      case _ =>
    }
  }

  /** Only one socket changed. */
  ghost predicate OthersSame(s: State, s': State, i: nat) {
    |s'.sockets| == |s.sockets| && forall j :: 0 <= j < |s.sockets| && j != i ==> s'.sockets[j] == s.sockets[j]
  }

  lemma ShapesKept(s: State, s': State, i: nat)
    requires (forall j :: WireOk(s, j)) && OthersSame(s, s', i) && WireOk(s', i)
    ensures forall j :: WireOk(s', j)
  {
    forall j: nat ensures WireOk(s', j) { assert WireOk(s, j); }
  }

  lemma WiresAfterSender(s: State, t: nat, x: Sender)
    requires Wires(s) && t < |s.senders| && LocalChange(s, t, x)
    ensures Wires(SetSender(s, t, x))
  {
    var s' := SetSender(s, t, x);
    forall i ensures WireOk(s', i) { assert WireOk(s, i); }
    forall i ensures PartialOk(s', i) { assert PartialOk(s, i); }
    forall u ensures SendOk(s', u) { assert SendOk(s, u); }
  }

  lemma WiresAfterSocket(s: State, i: nat, y: Socket)
    requires Wires(s) && Ownership(s) && i < |s.sockets| && SocketChange(s, i, y)
    ensures Wires(SetSocket(s, i, y))
  {
    var s' := SetSocket(s, i, y);
    assert UseOk(s, i) && WireOk(s, i);
    GreetingShape(s.sockets[i], y);
    forall j ensures WireOk(s', j) { assert WireOk(s, j); }
    forall j ensures PartialOk(s', j) { assert PartialOk(s, j); }
    forall u ensures SendOk(s', u) { assert SendOk(s, u); }
  }

  lemma GreetingShape(o: Socket, y: Socket)
    requires o.pc == Greeting ==> o.done == [] && o.partial == [] && |o.wire| <= |o.hello|
    requires y == o.(pc := y.pc, wire := y.wire, usable := y.usable)
    requires y.wire == o.wire || (o.pc == Greeting && |o.wire| <= |y.wire| <= |y.hello|
                                  && y.wire == o.wire + y.hello[|o.wire|..|y.wire|])
    requires WireShape(o.wire, o.hello, o.done, o.partial)
    ensures WireShape(y.wire, y.hello, y.done, y.partial)
  {
    if y.wire != o.wire {
      assert Flatten(FramesOf([])) == [];
      assert o.wire == o.hello[..|o.wire|];
      assert y.wire == y.hello[..|y.wire|];
      assert y.hello + [] + [] == y.hello;
    }
  }

  lemma WiresKeptByNumber(s: State, t: nat, id: SessionId)
    requires Wires(s) && Enabled(s, Number(t, id))
    ensures Wires(Numbering(s, t, s.sessions[id]))
  {
    var s' := Numbering(s, t, s.sessions[id]);
    forall i ensures WireOk(s', i) { assert WireOk(s, i); }
    forall i ensures PartialOk(s', i) { assert PartialOk(s, i); }
    forall u ensures SendOk(s', u) { assert SendOk(s, u); }
  }

  lemma WiresKeptByTake(s: State, t: nat)
    requires Wires(s) && Registry(s) && Choices(s) && Ownership(s) && Enabled(s, Take(t))
    ensures Wires(Taking(s, t))
  {
    var s', i := Taking(s, t), s.senders[t].socket;
    assert ChoiceOk(s, t) && StreamOk(s, s.senders[t].session, i) && PartialOk(s, i);
    forall j ensures WireOk(s', j) { assert WireOk(s, j); }
    forall j ensures PartialOk(s', j) { assert PartialOk(s, j); }
    forall u ensures SendOk(s', u) { assert SendOk(s, u) && OwnerOk(s, u); }
  }

  lemma WiresKeptByRelease(s: State, s': State, t: nat, woken: nat)
    requires Wires(s) && Ownership(s) && ReleaseChange(s, s', t, woken)
    ensures Wires(s')
  {
    assert OwnerOk(s, t) && WireOk(s, s.senders[t].socket);
    ShapesKept(s, s', s.senders[t].socket);
    ReleasedPartials(s, s', t, woken);
    forall u ensures SendOk(s', u) { assert SendOk(s, u); }
  }

  lemma ReleasedPartials(s: State, s': State, t: nat, woken: nat)
    requires (forall i :: PartialOk(s, i)) && Ownership(s) && ReleaseChange(s, s', t, woken)
    ensures forall i :: PartialOk(s', i)
  {
    assert OwnerOk(s, t);
    forall j ensures PartialOk(s', j) { assert PartialOk(s, j) && UseOk(s, j); }
  }

  lemma WiresKeptByRegister(s: State, i: nat)
    requires Wires(s) && Enabled(s, Register(i))
    ensures Wires(Joined(s, i))
  {
    var s' := Joined(s, i);
    assert WireOk(s, i);
    ShapesKept(s, s', i);
    RegisteredPartials(s, i);
    forall u ensures SendOk(s', u) { assert SendOk(s, u); }
  }

  lemma RegisteredPartials(s: State, i: nat)
    requires (forall j :: PartialOk(s, j)) && Enabled(s, Register(i))
    ensures forall j :: PartialOk(Joined(s, i), j)
  {
    assert PartialOk(s, i);
    forall j ensures PartialOk(Joined(s, i), j) { assert PartialOk(s, j); }
  }

  lemma WiresKeptByUnregister(s: State, i: nat)
    requires Wires(s) && Enabled(s, Unregister(i))
    ensures Wires(Left(s, i))
  {
    var s' := Left(s, i);
    LeaveSteps(s, i);
    hide Left, Enabled;
    assert WireOk(s, i);
    ShapesKept(s, s', i);
    UnregisteredPartials(s, i);
    forall u ensures SendOk(s', u) { assert SendOk(s, u); }
  }

  lemma UnregisteredPartials(s: State, i: nat)
    requires (forall j :: PartialOk(s, j)) && Enabled(s, Unregister(i))
    ensures forall j :: PartialOk(Left(s, i), j)
  {
    LeaveSteps(s, i);
    var s' := Left(s, i);
    hide Left, Enabled;
    forall j ensures PartialOk(s', j) { assert PartialOk(s, j); }
  }

  lemma WiresKeptByWrite(s: State, t: nat, n: nat)
    requires Wires(s) && Ownership(s) && Numbers(s) && Enabled(s, Write(t, n))
    ensures Wires(Writing(s, t, n))
  {
    var s', i := Writing(s, t, n), s.senders[t].socket;
    WrittenWire(s, t, n);
    forall j ensures PartialOk(s', j) {
      assert PartialOk(s, j) && UseOk(s, j);
      if j == i { WrittenPartial(s, t, n); }
    }
    forall u ensures SendOk(s', u) {
      assert SendOk(s, u) && OwnerOk(s, u) && OwnerOk(s, t);
      if u == t { WrittenSoFar(s, t, n); }
    }
  }

  lemma WrittenSoFar(s: State, t: nat, n: nat)
    requires Wires(s) && Enabled(s, Write(t, n))
    ensures var x, y := Writing(s, t, n).senders[t], Writing(s, t, n).sockets[s.senders[t].socket];
            x.written == s.senders[t].written + n <= |x.buf| && y.partial == x.buf[..x.written] && y.current == x.num
  {
    assert SendOk(s, t);
    var x := s.senders[t];
    assert x.buf[..x.written] + x.buf[x.written..x.written + n] == x.buf[..x.written + n];
    assert [] + x.buf[..n] == x.buf[..n];
  }

  lemma WrittenPartial(s: State, t: nat, n: nat)
    requires Wires(s) && Ownership(s) && Numbers(s) && Enabled(s, Write(t, n))
    ensures PartialOk(Writing(s, t, n), s.senders[t].socket)
  {
    assert OwnerOk(s, t) && FlightOk(s, t) && UseOk(s, s.senders[t].socket);
    WrittenSoFar(s, t, n);
  }

  lemma WrittenWire(s: State, t: nat, n: nat)
    requires Wires(s) && Ownership(s) && Enabled(s, Write(t, n))
    ensures forall j :: WireOk(Writing(s, t, n), j)
  {
    var s', i := Writing(s, t, n), s.senders[t].socket;
    var x, y := s.senders[t], s.sockets[i];
    assert OwnerOk(s, t) && UseOk(s, i) && WireOk(s, i);
    Associative(y.hello + Flatten(FramesOf(y.done)), y.partial, x.buf[x.written..x.written + n]);
    forall j ensures WireOk(s', j) { assert WireOk(s, j); }
  }

  lemma WiresKeptByFail(s: State, t: nat)
    requires Wires(s) && Ownership(s) && Numbers(s) && Enabled(s, FailWrite(t))
    ensures Wires(Failing(s, t))
  {
    var s', i := Failing(s, t), s.senders[t].socket;
    assert WireOk(s, i);
    ShapesKept(s, s', i);
    FailedPartials(s, t);
    assert OwnerOk(s, t);
    forall u ensures SendOk(s', u) { assert SendOk(s, u); }
  }

  lemma FailedPartials(s: State, t: nat)
    requires Wires(s) && Ownership(s) && Numbers(s) && Enabled(s, FailWrite(t))
    ensures forall j :: PartialOk(Failing(s, t), j)
  {
    assert OwnerOk(s, t) && FlightOk(s, t);
    forall j ensures PartialOk(Failing(s, t), j) { assert PartialOk(s, j) && UseOk(s, j); }
  }

  lemma FramesOfSnoc(done: seq<Sent>, d: Sent)
    ensures FramesOf(done + [d]) == FramesOf(done) + [d.frame]
    ensures Flatten(FramesOf(done + [d])) == Flatten(FramesOf(done)) + d.frame
  {
    assert (done + [d])[..|done|] == done;
    FlattenSnoc(FramesOf(done), d.frame);
  }

  /** When a send is complete, what follows the completed frames is exactly its frame. */
  lemma CompletedPartial(s: State, t: nat)
    requires Wires(s) && Queues(s) && Enabled(s, Complete(t))
    ensures s.sockets[s.senders[t].socket].partial == s.senders[t].buf
  {
    assert SendOk(s, t) && QueueOk(s, t);
    assert s.senders[t].buf[..|s.senders[t].buf|] == s.senders[t].buf;
  }

  lemma WiresKeptByComplete(s: State, t: nat)
    requires Wires(s) && Ownership(s) && Numbers(s) && Queues(s) && Enabled(s, Complete(t))
    ensures Wires(Completing(s, t))
  {
    var s', i := Completing(s, t), s.senders[t].socket;
    CompletedWire(s, t);
    assert OwnerOk(s, t) && FlightOk(s, t);
    forall j ensures PartialOk(s', j) { assert PartialOk(s, j) && UseOk(s, j); }
    forall u ensures SendOk(s', u) { assert SendOk(s, u) && OwnerOk(s, u); }
  }

  lemma CompletedWire(s: State, t: nat)
    requires Wires(s) && Ownership(s) && Queues(s) && Enabled(s, Complete(t))
    ensures forall j :: WireOk(Completing(s, t), j)
  {
    var s', i := Completing(s, t), s.senders[t].socket;
    var x, y := s.senders[t], s.sockets[i];
    assert OwnerOk(s, t) && UseOk(s, i) && WireOk(s, i);
    CompletedPartial(s, t);
    CompletedShape(y, Sent(x.num, x.buf));
    ShapesKept(s, s', i);
  }

  lemma CompletedShape(y: Socket, d: Sent)
    requires WireShape(y.wire, y.hello, y.done, y.partial) && |y.wire| >= |y.hello| && y.partial == d.frame
    ensures WireShape(y.wire, y.hello, y.done + [d], [])
  {
    FramesOfSnoc(y.done, d);
    Associative(y.hello, Flatten(FramesOf(y.done)), d.frame);
    assert y.wire + [] == y.wire;
  }
}
