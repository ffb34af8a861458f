/** What a queue thread hands on can be sent. */
module BatchingRuns {
  import opened Bytes
  import opened Lists
  import opened FrameFormat
  import opened Batching
  import opened TunnelReceiveLoop
  import opened BatchingSteps
  import opened Scheduler
  import opened SchedulerSafety
  import opened WriterPreference
  import opened SchedulerRuns

  /** Thread 0 is the only one that does anything, and stream 0 the only one registered. */
  ghost predicate Alone(s: State) {
    && ReachableIfWritersFirst(s)
    && |s.senders| == 2 && s.senders[1] == NewSender()
    && |s.sockets| == 2 && s.sockets[0].pc == Serving && s.sockets[0].usable && s.sockets[0].session == 0
    && s.sockets[1].pc == Greeting
    && s.sessions == map[ID := 0] && |s.objects| == 1 && s.objects[0].streams == [0]
  }

  /** Only the history of the numbers has changed. */
  ghost predicate SameLog(s: State, s': State) {
    && Alone(s) && Alone(s') && s'.objects[0].log == s.objects[0].log
    && s'.objects[0].nextSeqNum == s.objects[0].nextSeqNum && |s'.objects[0].fates| == |s.objects[0].fates|
  }

  lemma {:induction false} ReadsAll(s0: State, ds: seq<Datagram>) returns (s: State)
    requires Alone(s0) && AtPc(s0, 0, Batching) && [] !in ds
    ensures SameLog(s0, s) && s.objects == s0.objects && s.sockets == s0.sockets
    ensures s.senders[0] == s0.senders[0].(read := s0.senders[0].read + ds, pending := s0.senders[0].pending + ds)
    decreases |ds|
  {
    hide ReachableIfWritersFirst;
    s := s0;
    if ds != [] {
      assert ds[0] in ds;
      s := Go(s0, Fetch(0, ds[0]));
      s := ReadsAll(s, ds[1..]);
      assert ds == [ds[0]] + ds[1..];
      var x := s0.senders[0];
      assert x.read + [ds[0]] + ds[1..] == x.read + ds && x.pending + [ds[0]] + ds[1..] == x.pending + ds;
    } else {
      assert s.senders[0].read + [] == s.senders[0].read && s.senders[0].pending + [] == s.senders[0].pending;
    }
  }

  /** The frame in hand is closed and gets its number. */
  lemma ClosesAndNumbers(s0: State, f: seq<byte>) returns (s: State)
    requires Alone(s0) && AtPc(s0, 0, Batching) && !s0.sockets[0].inUse
    requires DataFrame(f) && DatagramsOf(f) != [] && s0.senders[0].pending == DatagramsOf(f)
    ensures Alone(s) && s.sockets == s0.sockets
    ensures var x, n := s0.objects[0], s0.objects[0].nextSeqNum;
            && s.objects[0] == x.(nextSeqNum := n + 1, log := x.log + [Entry(0, Stamp(f, n))],
                                  fates := x.fates + [InFlight])
            && s.senders[0] == s0.senders[0].(pc := Numbered, buf := Stamp(f, n), num := n, session := 0, pending := [],
                                              handed := s0.senders[0].handed + [Handed(0, DatagramsOf(f))])
  {
    hide ReachableIfWritersFirst, DatagramsOf, Stamp;
    assert s0.senders[0].pending == DatagramsOf(f) + [];
    s := Go(s0, CloseBatch(0, f, []));
    s := Go(s, Enter(0));
    s := Go(s, Number(0, ID));
  }

  /** The stream is picked and the frame written to it. */
  lemma WritesAll(s0: State) returns (s: State)
    requires Alone(s0) && AtPc(s0, 0, Numbered) && !s0.sockets[0].inUse
    requires s0.senders[0].session == 0 && s0.senders[0].buf != []
    ensures SameLog(s0, s) && s.objects == s0.objects
    ensures s.senders[0] == s0.senders[0].(pc := Sending, socket := 0, written := |s0.senders[0].buf|)
  {
    hide ReachableIfWritersFirst;
    s := Go(s0, Lock(0));
    s := Go(s, Pick(0, 0));
    s := Go(s, Take(0));
    s := Go(s, LeaveShared(0));
    s := Go(s, Write(0, |s.senders[0].buf|));
  }

  /** The send returns and the stream is given back. */
  lemma GivesBack(s0: State) returns (s: State)
    requires Alone(s0) && AtPc(s0, 0, Sending) && s0.senders[0].session == 0 && s0.senders[0].socket == 0
    requires s0.senders[0].written == |s0.senders[0].buf| && 1 <= s0.senders[0].num <= |s0.objects[0].fates|
    ensures SameLog(s0, s) && !s.sockets[0].inUse
    ensures s.senders[0] == s0.senders[0].(pc := Batching, ok := true)
    ensures s.objects[0].fates[s0.senders[0].num - 1].Completed?
    ensures forall n :: 0 <= n < |s0.objects[0].fates| && n != s0.senders[0].num - 1 ==>
              s.objects[0].fates[n] == s0.objects[0].fates[n]
  {
    hide ReachableIfWritersFirst;
    s := Completes(s0);
    s := Go(s, Reenter(0));
    s := Go(s, RelockToRelease(0));
    s := Go(s, Release(0, 0));
  }

  lemma Completes(s0: State) returns (s: State)
    requires Alone(s0) && AtPc(s0, 0, Sending) && s0.senders[0].session == 0 && s0.senders[0].socket == 0
    requires s0.senders[0].written == |s0.senders[0].buf| && 1 <= s0.senders[0].num <= |s0.objects[0].fates|
    ensures SameLog(s0, s) && s.senders[0] == s0.senders[0].(pc := Finishing, ok := true)
    ensures s.objects[0].fates[s0.senders[0].num - 1].Completed?
    ensures forall n :: 0 <= n < |s0.objects[0].fates| && n != s0.senders[0].num - 1 ==>
              s.objects[0].fates[n] == s0.objects[0].fates[n]
  {
    hide ReachableIfWritersFirst;
    s := Go(s0, Complete(0));
  }

  /** The first k frames of the account have been handed on and completed. */
  ghost predicate HandedOn(s: State, a: Account, k: nat) {
    && Alone(s) && AtPc(s, 0, Batching) && !s.sockets[0].inUse && k <= |a.frames| == |a.batches|
    && s.senders[0].read == Flatten(a.batches[..k]) && s.senders[0].pending == []
    && BatchesOf(s.senders[0].handed) == a.batches[..k]
    && s.objects[0].nextSeqNum == k + 1 && |s.objects[0].log| == |s.objects[0].fates| == k
    && forall n :: 0 <= n < k ==> FrameSent(s, a, n)
  }

  ghost predicate FrameSent(s: State, a: Account, n: nat) {
    && n < |a.frames| && |a.frames[n]| >= HEADER_SIZE
    && |s.objects| > 0 && n < |s.objects[0].log| && n < |s.objects[0].fates|
    && s.objects[0].log[n] == Entry(0, Stamp(a.frames[n], n + 1)) && s.objects[0].fates[n].Completed?
  }

  /** A frame with this batch is read, numbered, sent and completed. */
  lemma SendsFrameOf(s0: State, f: seq<byte>, batch: Batch) returns (s: State)
    requires Alone(s0) && AtPc(s0, 0, Batching) && !s0.sockets[0].inUse && s0.senders[0].pending == []
    requires |s0.objects[0].log| == |s0.objects[0].fates| && s0.objects[0].nextSeqNum == |s0.objects[0].log| + 1
    requires [] !in batch && batch != [] && CarriesBatch(f, batch)
    ensures Alone(s) && AtPc(s, 0, Batching) && !s.sockets[0].inUse && s.senders[0].pending == []
    ensures s.senders[0].read == s0.senders[0].read + batch
    ensures s.senders[0].handed == s0.senders[0].handed + [Handed(0, batch)]
    ensures s.objects[0].nextSeqNum == s0.objects[0].nextSeqNum + 1
    ensures s.objects[0].log == s0.objects[0].log + [Entry(0, Stamp(f, s0.objects[0].nextSeqNum))]
    ensures |s.objects[0].fates| == |s0.objects[0].fates| + 1 && s.objects[0].fates[|s0.objects[0].fates|].Completed?
    ensures forall n :: 0 <= n < |s0.objects[0].fates| ==> s.objects[0].fates[n] == s0.objects[0].fates[n]
  {
    hide ReachableIfWritersFirst, DatagramsOf, Stamp, IsFrame, Tiled;
    StampKeepsFrame(f, s0.objects[0].nextSeqNum);
    s := ReadsAll(s0, batch);
    assert [] + batch == batch;
    s := ClosesAndNumbers(s, f);
    s := WritesAll(s);
    s := GivesBack(s);
  }

  lemma NextFrame(s0: State, a: Account, k: nat) returns (s: State)
    requires Consistent(a) && k < |a.frames| && HandedOn(s0, a, k) && [] !in a.batches[k]
    ensures HandedOn(s, a, k + 1)
  {
    hide ReachableIfWritersFirst, DatagramsOf, Stamp, IsFrame, Tiled;
    assert CarriesAt(a.frames, a.batches, k);
    s := SendsFrameOf(s0, a.frames[k], a.batches[k]);
    assert a.batches[..k + 1] == a.batches[..k] + [a.batches[k]];
    FlattenSnoc(a.batches[..k], a.batches[k]);
    BatchesSnoc(s0.senders[0].handed, Handed(0, a.batches[k]));
    forall n | 0 <= n < k + 1 ensures FrameSent(s, a, n) { assert n < k ==> FrameSent(s0, a, n); }
  }

  lemma BatchesSnoc(handed: seq<Handed>, h: Handed)
    ensures BatchesOf(handed + [h]) == BatchesOf(handed) + [h.datagrams]
  {
    assert (handed + [h])[..|handed|] == handed;
  }

  lemma {:induction false} Frames(a: Account, k: nat) returns (s: State)
    requires Consistent(a) && k <= |a.frames| && [] !in a.got
    ensures HandedOn(s, a, k)
  {
    if k == 0 {
      s := NothingHandedOn(a);
    } else {
      s := Frames(a, k - 1);
      if [] in a.batches[k - 1] {
        InFlatten(a.batches, k - 1, []);
      }
      s := NextFrame(s, a, k - 1);
    }
  }

  lemma NothingHandedOn(a: Account) returns (s: State)
    requires Consistent(a)
    ensures HandedOn(s, a, 0)
  {
    hide ReachableIfWritersFirst, Hello, IsFrame, SeqNumOf;
    HelloIsFrame();
    Start(Hello());
    s := Registered(Hello());
    assert a.batches[..0] == [];
  }

  /** For every account that a queue thread's loop can end with there is a run of the scheduler in which the
      thread reads the same datagrams, hands on and sends exactly the frames of the account, each with the
      next number, and is left with the same datagrams. */
  lemma SchedulerSendsAccount(a: Account) returns (s: State)
    requires Consistent(a) && [] !in a.got
    ensures Reachable(s) && AtPc(s, 0, Batching)
    ensures s.senders[0].read == a.got && s.senders[0].pending == a.open + a.carried
    ensures BatchesOf(s.senders[0].handed) == a.batches
    ensures |s.objects| == 1 && |s.objects[0].log| == |a.frames|
    ensures forall n :: 0 <= n < |a.frames| ==> FrameSent(s, a, n)
  {
    hide ReachableIfWritersFirst;
    s := Frames(a, |a.frames|);
    var sent := s;
    assert a.batches[..|a.frames|] == a.batches;
    Associative(Flatten(a.batches), a.open, a.carried);
    s := ReadsAll(s, a.open + a.carried);
    assert [] + (a.open + a.carried) == a.open + a.carried;
    forall n | 0 <= n < |a.frames| ensures FrameSent(s, a, n) { assert FrameSent(sent, a, n); }
    ReachableAnyway(s);
  }
}
