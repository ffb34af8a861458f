/** Every step keeps the account of each queue's datagrams.

    Only reading, closing a frame and numbering it move a queue's datagrams from one part of the account
    to the next. A step that neither touches a log nor a frame without a number leaves the account as it
    was, which takes care of all the others. */
module SchedulerQueues {
  import opened Lists
  import opened FrameFormat
  import opened Scheduler
  import opened SchedulerInvariant
  import opened SchedulerOwnership
  import opened SchedulerNumbers

  lemma QueuesKept(s: State, step: Step)
    requires Queues(s) && Numbers(s) && Enabled(s, step)
    ensures Queues(Apply(s, step))
  {
    if Local(step) {
      QueuesKeptByLocal(s, step);
    } else if step.Number? {
      QueuesKeptByNumber(s, step.t, step.id);
    } else if step.Register? {
      QueuesKeptByRegister(s, step.i);
    } else {
      QueuesKeptByRest(s, step);
    }
  }

  lemma QueuesKeptIfSame(s: State, s': State)
    requires Queues(s) && SameLogs(s, s') && SameQueues(s, s')
    ensures Queues(s')
  {
    forall t ensures QueueOk(s', t) { assert QueueOk(s, t); }
    forall r, t ensures LogOk(s', r, t) { assert LogOk(s, r, t); }
  }

  lemma QueuesKeptByRest(s: State, step: Step)
    requires Queues(s) && Enabled(s, step) && !Local(step) && !step.Number? && !step.Register?
    ensures Queues(Apply(s, step))
  {
    if Unregistered(step) {
      var i, y := SocketSteps(s, step);
      QueuesKeptIfSame(s, Apply(s, step));
    } else if InSend(step) {
      QueuesKeptBySend(s, step);
    } else {
      QueuesKeptByTransfer(s, step);
    }
  }

  lemma QueuesKeptBySend(s: State, step: Step)
    requires Queues(s) && Enabled(s, step) && InSend(step)
    ensures Queues(Apply(s, step))
  {
    var s' := Apply(s, step);
    var sending := SendSteps(s, step);
    forall t ensures QueueOk(s', t) { assert QueueOk(s, t); }
    forall r, t ensures LogOk(s', r, t) { assert LogOk(s, r, t); }
  }

  lemma QueuesKeptByTransfer(s: State, step: Step)
    requires Queues(s) && Enabled(s, step) && (step.Take? || step.Release? || step.Unregister?)
    ensures Queues(Apply(s, step))
  {
    match step {
      case Take(t) => TakeKeepsBooks(s, t);
      case Release(t, woken) =>
        ReleaseSteps(s, t, woken);
        ReleaseKeepsBooks(s, Apply(s, step), t, woken);
      case Unregister(i) =>
    }
    QueuesKeptIfSame(s, Apply(s, step));
  }

  lemma QueuesKeptByLocal(s: State, step: Step)
    requires Queues(s) && Enabled(s, step) && Local(step)
    ensures Queues(Apply(s, step))
  {
    hide Apply, Enabled;
    var s' := Apply(s, step);
    var mover, x := LocalSteps(s, step);
    forall t ensures QueueOk(s', t) {
      assert QueueOk(s, t);
      if t == mover { LocalQueue(s, step); }
    }
    forall r, t ensures LogOk(s', r, t) { assert LogOk(s, r, t); }
  }

  lemma LocalQueue(s: State, step: Step)
    requires Queues(s) && Enabled(s, step) && Local(step)
    ensures QueueOk(Apply(s, step), step.t)
  {
    assert QueueOk(s, step.t);
    if step.Fetch? {
      Fetched(s.senders[step.t], [step.d]);
    } else if step.CloseBatch? {
      BatchClosed(s.senders[step.t], DatagramsOf(step.buf), step.keep);
    } else if step.StopQueue? {
      HandBack(s.senders[step.t]);
    } else {
      QueueUntouched(s, step);
    }
  }

  lemma QueueUntouched(s: State, step: Step)
    requires Queues(s) && Enabled(s, step) && Local(step) && !step.Fetch? && !step.CloseBatch? && !step.StopQueue?
    ensures QueueOk(Apply(s, step), step.t)
  {
    MoveSteps(s, step);
    assert QueueOk(s, step.t);
    QueueAfterMove(s, step.t, Apply(s, step).senders[step.t]);
  }

  lemma QueueAfterMove(s: State, t: nat, x: Sender)
    requires QueueOk(s, t) && t < |s.senders| && MoveOnly(s.senders[t], x)
    ensures QueueOk(SetSender(s, t, x), t)
  {
  }

  lemma Fetched(x: Sender, more: seq<Datagram>)
    requires x.read == AllHanded(x.handed) + [] + x.pending
    ensures x.read + more == AllHanded(x.handed) + [] + (x.pending + more)
  {
    Associative(AllHanded(x.handed) + [], x.pending, more);
  }

  lemma BatchClosed(x: Sender, batch: seq<Datagram>, keep: seq<Datagram>)
    requires x.read == AllHanded(x.handed) + [] + x.pending && x.pending == batch + keep
    ensures x.read == AllHanded(x.handed) + batch + keep
  {
    Associative(AllHanded(x.handed), batch, keep);
    assert AllHanded(x.handed) + [] == AllHanded(x.handed);
  }

  lemma HandBack(x: Sender)
    requires x.read == AllHanded(x.handed) + Unnumbered(x) + x.pending
    ensures x.read == AllHanded(x.handed) + [] + (Unnumbered(x) + x.pending)
  {
    Associative(AllHanded(x.handed), Unnumbered(x), x.pending);
    assert AllHanded(x.handed) + [] == AllHanded(x.handed);
    assert [] + x.pending == x.pending;
  }

  lemma HandedSnoc(handed: seq<Handed>, h: Handed, r: nat)
    ensures AllHanded(handed + [h]) == AllHanded(handed) + h.datagrams
    ensures HandedTo(handed + [h], r) == HandedTo(handed, r) + if h.session == r then [h.datagrams] else []
  {
    assert (handed + [h])[..|handed|] == handed;
  }

  lemma SentBySnoc(log: seq<Entry>, e: Entry, t: nat)
    ensures SentBy(log + [e], t) ==
            SentBy(log, t) + if e.sender == t && |e.frame| >= HEADER_SIZE then [DatagramsOf(e.frame)] else []
  {
    assert (log + [e])[..|log|] == log;
  }

  lemma QueuesKeptByNumber(s: State, t: nat, id: SessionId)
    requires Queues(s) && Numbers(s) && Enabled(s, Number(t, id))
    ensures Queues(Numbering(s, t, s.sessions[id]))
  {
    NumberedQueue(s, t, id);
    var s' := Numbering(s, t, s.sessions[id]);
    forall u ensures QueueOk(s', u) { assert QueueOk(s, u); }
    forall r, u ensures LogOk(s', r, u) { NumberedLog(s, t, id, r, u); }
  }

  lemma NumberedQueue(s: State, t: nat, id: SessionId)
    requires QueueOk(s, t) && Enabled(s, Number(t, id))
    ensures QueueOk(Numbering(s, t, s.sessions[id]), t)
  {
    var here, o := s.sessions[id], s.senders[t];
    StampKeepsFrame(o.buf, s.objects[here].nextSeqNum);
    HandedSnoc(o.handed, Handed(here, DatagramsOf(o.buf)), here);
    var handed := AllHanded(o.handed) + DatagramsOf(o.buf);
    assert handed + [] == handed;
  }

  lemma NumberedLog(s: State, t: nat, id: SessionId, r: nat, u: nat)
    requires QueueOk(s, t) && LogOk(s, r, u) && Enabled(s, Number(t, id))
    ensures LogOk(Numbering(s, t, s.sessions[id]), r, u)
  {
    var here, o := s.sessions[id], s.senders[t];
    var log := s.objects[here].log;
    var buf := Stamp(o.buf, s.objects[here].nextSeqNum);
    StampKeepsFrame(o.buf, s.objects[here].nextSeqNum);
    HandedSnoc(o.handed, Handed(here, DatagramsOf(o.buf)), r);
    SentBySnoc(log, Entry(t, buf), u);
    assert SentBy(log, u) + [] == SentBy(log, u);
    assert HandedTo(o.handed, r) + [] == HandedTo(o.handed, r);
  }

  lemma {:induction false} NoneHandedTo(handed: seq<Handed>, r: nat)
    requires forall k :: 0 <= k < |handed| ==> handed[k].session != r
    ensures HandedTo(handed, r) == []
  {
    if handed != [] {
      NoneHandedTo(handed[..|handed| - 1], r);
    }
  }

  lemma QueuesKeptByRegister(s: State, i: nat)
    requires Queues(s) && Enabled(s, Register(i))
    ensures Queues(Joined(s, i))
  {
    var s' := Joined(s, i);
    forall t ensures QueueOk(s', t) { assert QueueOk(s, t); }
    forall r: nat, t: nat ensures LogOk(s', r, t) {
      assert LogOk(s, r, t);
      if r == |s.objects| && t < |s.senders| {
        assert QueueOk(s, t);
        NoneHandedTo(s.senders[t].handed, r);
      }
    }
  }
}
