/** The loop of a queue thread and the scheduler's steps for it speak of the same frames. */
module BatchingSteps {
  import opened Lists
  import opened FrameFormat
  import opened Batching
  import opened TunnelReceiveLoop
  import opened Scheduler
  import opened SchedulerInvariant
  import opened SchedulerSafety

  /** The batches in the frames a queue thread has handed on. */
  function BatchesOf(handed: seq<Handed>): seq<Batch> {
    if handed == [] then [] else BatchesOf(handed[..|handed| - 1]) + [handed[|handed| - 1].datagrams]
  }

  lemma {:induction false} BatchesFlatten(handed: seq<Handed>)
    ensures Flatten(BatchesOf(handed)) == AllHanded(handed)
  {
    if handed != [] {
      BatchesFlatten(handed[..|handed| - 1]);
      FlattenSnoc(BatchesOf(handed[..|handed| - 1]), handed[|handed| - 1].datagrams);
    }
  }

  /** Every frame of a queue thread's account is one that the scheduler lets it close: once the thread has
      handed on the batches before it and has read its datagrams and any others behind them, closing that
      very frame is enabled, and keeps the others. */
  lemma EachFrameCanBeClosed(a: Account, i: nat, s: Scheduler.State, t: nat, keep: seq<Datagram>)
    requires Consistent(a) && i < |a.frames| && Reachable(s) && AtPc(s, t, Batching)
    requires BatchesOf(s.senders[t].handed) == a.batches[..i]
    requires s.senders[t].read == Flatten(a.batches[..i + 1]) + keep
    ensures Enabled(s, CloseBatch(t, a.frames[i], keep))
    ensures var x := Apply(s, CloseBatch(t, a.frames[i], keep)).senders[t];
            x.pc == Ready && x.buf == a.frames[i] && DatagramsOf(x.buf) == a.batches[i] && x.pending == keep
  {
    QueueInRun(s, t);
    hide Reachable;
    var x := s.senders[t];
    assert CarriesAt(a.frames, a.batches, i);
    BatchesFlatten(x.handed);
    assert a.batches[..i + 1] == a.batches[..i] + [a.batches[i]];
    FlattenSnoc(a.batches[..i], a.batches[i]);
    SameRest(AllHanded(x.handed), x.pending, a.batches[i], keep);
  }

  lemma SameRest(handed: seq<Datagram>, pending: seq<Datagram>, batch: seq<Datagram>, keep: seq<Datagram>)
    requires handed + [] + pending == handed + batch + keep
    ensures pending == batch + keep
  {
    assert handed + [] == handed;
    assert handed + batch + keep == handed + (batch + keep);
    assert pending == (handed + pending)[|handed|..];
    assert batch + keep == (handed + (batch + keep))[|handed|..];
  }
}
