/** What the far end makes of everything a session's streams carried. */
module EndToEnd {
  import opened Bytes
  import opened Lists
  import opened FrameFormat
  import opened Deframing
  import opened Scheduler
  import opened SchedulerInvariant
  import opened SchedulerSafety
  import opened Reassembly

  /** The data frames the far end has received of a stream once `n` of its bytes have arrived: the
      first frame is the greeting. */
  function DataArrived(y: Socket, n: nat): seq<seq<byte>> {
    var frames := ReceiveMany(y.wire[..if n <= |y.wire| then n else |y.wire|]).frames;
    if frames == [] then [] else frames[1..]
  }

  /** The data frames delivered by the first m sockets within session r, `got[i]` bytes having arrived
      on socket i. */
  function Delivered(s: State, r: nat, got: seq<nat>, m: nat): seq<seq<byte>>
    requires m <= |s.sockets| && m <= |got|
  {
    if m == 0 then []
    else Delivered(s, r, got, m - 1)
         + if s.sockets[m - 1].session == r then DataArrived(s.sockets[m - 1], got[m - 1]) else []
  }

  /** Every frame the socket has carried, the last one perhaps in part. */
  function Carried(s: State, i: nat): seq<seq<byte>>
    requires i < |s.sockets|
  {
    var y := s.sockets[i];
    [y.hello] + (FramesOf(y.done) + Unfinished(s, y))
  }

  function Unfinished(s: State, y: Socket): seq<seq<byte>> {
    if y.partial != [] && y.session < |s.objects| && 1 <= y.current <= |s.objects[y.session].log|
    then [s.objects[y.session].log[y.current - 1].frame] else []
  }

  lemma {:induction false} FramesOfAt(done: seq<Sent>, k: nat)
    requires k < |done|
    ensures |FramesOf(done)| == |done| && FramesOf(done)[k] == done[k].frame
  {
    if k < |done| - 1 {
      FramesOfAt(done[..|done| - 1], k);
    } else if |done| > 1 {
      FramesOfAt(done[..|done| - 1], 0);
    }
  }

  lemma CarriedAt(s: State, i: nat, k: nat)
    requires i < |s.sockets| && k < |Carried(s, i)|
    ensures var y := s.sockets[i];
            && |Carried(s, i)| == 1 + |y.done| + |Unfinished(s, y)|
            && Carried(s, i)[k] == (if k == 0 then y.hello
                                    else if k <= |y.done| then y.done[k - 1].frame
                                    else Unfinished(s, y)[0])
  {
    var y := s.sockets[i];
    if y.done != [] {
      FramesOfAt(y.done, if 1 <= k <= |y.done| then k - 1 else 0);
    }
  }

  lemma CarriedSelfDelimited(s: State, i: nat)
    requires Invariant(s) && i < |s.sockets|
    ensures AllSelfDelimited(Carried(s, i))
  {
    var y := s.sockets[i];
    forall k | 0 <= k < |Carried(s, i)| ensures SelfDelimited(Carried(s, i)[k]) {
      CarriedAt(s, i, k);
      if k == 0 {
        assert WireOk(s, i);
      } else if k <= |y.done| {
        assert DoneOk(s, i, k - 1);
        assert NumberOk(s, y.session, y.done[k - 1].num - 1);
      } else {
        assert PartialOk(s, i);
        assert NumberOk(s, y.session, y.current - 1);
      }
    }
  }

  lemma CarriedFlattens(s: State, i: nat)
    requires i < |s.sockets|
    ensures var y := s.sockets[i];
            Flatten(Carried(s, i)) == y.hello + (Flatten(FramesOf(y.done)) + Flatten(Unfinished(s, y)))
  {
    var y := s.sockets[i];
    var frames, more := FramesOf(y.done), Unfinished(s, y);
    assert Carried(s, i)[1..] == frames + more;
    FlattenAppend(frames, more);
  }

  /** The bytes on the wire are a beginning of the carried frames. */
  lemma WireIsPrefix(s: State, i: nat)
    requires Invariant(s) && i < |s.sockets|
    ensures s.sockets[i].wire <= Flatten(Carried(s, i))
    ensures s.sockets[i].partial == [] && |s.sockets[i].wire| >= |s.sockets[i].hello| ==>
              s.sockets[i].wire == Flatten(Carried(s, i))
  {
    var y := s.sockets[i];
    assert WireOk(s, i);
    CarriedFlattens(s, i);
    if |y.wire| >= |y.hello| {
      if y.partial == [] {
        assert y.hello + (Flatten(FramesOf(y.done)) + []) == y.hello + Flatten(FramesOf(y.done)) + [];
      } else {
        assert PartialOk(s, i);
        var frame := s.objects[y.session].log[y.current - 1].frame;
        assert Flatten([frame]) == frame;
        Associative(y.hello, Flatten(FramesOf(y.done)), frame);
      }
    }
  }

  /** Where frame n of session r is, or was, written: the socket, and its place among the frames there. */
  function Place(s: State, r: nat, n: nat): (nat, nat)
    requires Booked(s, r) && 1 <= n <= |s.objects[r].log|
  {
    match s.objects[r].fates[n - 1]
    case Completed(i, j) => (i, j)
    case _ =>
      var t := s.objects[r].log[n - 1].sender;
      if HasSocket(s, t) then (s.senders[t].socket, |s.sockets[s.senders[t].socket].done|) else (0, 0)
  }

  ghost predicate Located(s: State, r: nat, frame: seq<byte>, i: nat, j: nat) {
    && Booked(s, r) && Logged(s.objects[r].log, frame)
    && Place(s, r, SeqNumOf(frame)) == (i, j)
  }

  ghost predicate Fits(s: State, r: nat) {
    r < |s.objects| ==> |s.objects[r].log| < Range(SEQ_NUM_SIZE)
  }

  lemma DoneLocated(s: State, i: nat, j: nat)
    requires Invariant(s) && i < |s.sockets| && j < |s.sockets[i].done| && Fits(s, s.sockets[i].session)
    ensures Located(s, s.sockets[i].session, s.sockets[i].done[j].frame, i, j)
  {
    var y := s.sockets[i];
    assert DoneOk(s, i, j) && CounterOk(s, y.session) && NumberOk(s, y.session, y.done[j].num - 1);
  }

  /** A frame that is wholly written but whose send has not returned yet. */
  lemma UnfinishedLocated(s: State, i: nat)
    requires Invariant(s) && i < |s.sockets| && Unfinished(s, s.sockets[i]) != [] && Fits(s, s.sockets[i].session)
    requires |s.sockets[i].partial| >= |Unfinished(s, s.sockets[i])[0]|
    ensures Located(s, s.sockets[i].session, Unfinished(s, s.sockets[i])[0], i, |s.sockets[i].done|)
  {
    var y := s.sockets[i];
    assert PartialOk(s, i) && CounterOk(s, y.session) && NumberOk(s, y.session, y.current - 1);
    assert UseOk(s, i) && OwnerOk(s, y.owner) && FlightOk(s, y.owner);
    hide Invariant;
  }

  /** The data frames that have arrived are the first ones carried. */
  lemma ArrivedFrames(s: State, i: nat, n: nat) returns (k: nat)
    requires Invariant(s) && i < |s.sockets|
    ensures 1 <= k <= |Carried(s, i)| && DataArrived(s.sockets[i], n) == Carried(s, i)[1..k]
    ensures k == |Carried(s, i)| && k > 1 ==> |s.sockets[i].wire| >= |Flatten(Carried(s, i))|
    ensures n >= |s.sockets[i].wire| == |Flatten(Carried(s, i))| ==> k == |Carried(s, i)|
  {
    var y, all := s.sockets[i], Carried(s, i);
    var cut := if n <= |y.wire| then n else |y.wire|;
    CarriedSelfDelimited(s, i);
    WireIsPrefix(s, i);
    assert y.wire[..cut] == Flatten(all)[..cut];
    k := ReceiveManyPrefix(all, cut);
    assert k == |all| ==> all[..k] == all;
    if k == 0 {
      assert all[1..1] == [];
      k := 1;
    }
  }

  /** The data frames that have arrived on a stream are its first ones, each in its place. */
  lemma ArrivedLocated(s: State, i: nat, n: nat)
    requires Invariant(s) && i < |s.sockets| && Fits(s, s.sockets[i].session)
    ensures forall j: nat :: j < |DataArrived(s.sockets[i], n)| ==>
              Located(s, s.sockets[i].session, DataArrived(s.sockets[i], n)[j], i, j)
  {
    var y, all := s.sockets[i], Carried(s, i);
    var k := ArrivedFrames(s, i, n);
    forall j: nat | j < |DataArrived(y, n)|
      ensures Located(s, y.session, DataArrived(y, n)[j], i, j)
    {
      assert DataArrived(y, n)[j] == all[j + 1];
      CarriedAt(s, i, j + 1);
      if j < |y.done| {
        DoneLocated(s, i, j);
      } else {
        WholeUnfinished(s, i);
        UnfinishedLocated(s, i);
      }
    }
  }

  /** If as many bytes as all carried frames have are on the wire, the last one is complete. */
  lemma WholeUnfinished(s: State, i: nat)
    requires Invariant(s) && i < |s.sockets| && Unfinished(s, s.sockets[i]) != []
    requires |s.sockets[i].wire| >= |Flatten(Carried(s, i))|
    ensures |s.sockets[i].partial| >= |Unfinished(s, s.sockets[i])[0]|
  {
    var y := s.sockets[i];
    assert WireOk(s, i);
    CarriedFlattens(s, i);
    var frame := Unfinished(s, y)[0];
    assert Flatten([frame]) == frame;
  }

  lemma DistinctAppend(a: seq<seq<byte>>, b: seq<seq<byte>>)
    requires Distinct(a) && Distinct(b) && forall x, y :: x in a && y in b ==> Key(x) != Key(y)
    ensures Distinct(a + b)
  {
    forall j, k | 0 <= j < k < |a + b| ensures Key((a + b)[j]) != Key((a + b)[k]) {
      if j < |a| <= k {
        assert a[j] in a && b[k - |a|] in b;
      }
    }
  }

  ghost predicate Before(s: State, r: nat, frame: seq<byte>, m: nat) {
    Booked(s, r) && Logged(s.objects[r].log, frame) && Place(s, r, SeqNumOf(frame)).0 < m
  }

  lemma ArrivedDistinct(s: State, i: nat, n: nat)
    requires Invariant(s) && i < |s.sockets| && Fits(s, s.sockets[i].session)
    ensures Distinct(DataArrived(s.sockets[i], n))
    ensures forall x :: x in DataArrived(s.sockets[i], n) ==>
              Before(s, s.sockets[i].session, x, i + 1) && !Before(s, s.sockets[i].session, x, i)
  {
    ArrivedLocated(s, i, n);
    var frames, r := DataArrived(s.sockets[i], n), s.sockets[i].session;
    forall j, k | 0 <= j < k < |frames| ensures Key(frames[j]) != Key(frames[k]) {
      assert Located(s, r, frames[j], i, j) && Located(s, r, frames[k], i, k);
    }
    forall x | x in frames ensures Before(s, r, x, i + 1) && !Before(s, r, x, i) {
      var j :| 0 <= j < |frames| && frames[j] == x;
      assert Located(s, r, frames[j], i, j);
    }
  }

  /** Whatever has arrived of a session's streams, no number arrives twice, and each frame is the one
      that got its number. */
  lemma DeliveredOnce(s: State, r: nat, got: seq<nat>, m: nat)
    requires Invariant(s) && m <= |s.sockets| && m <= |got| && Fits(s, r)
    ensures Distinct(Delivered(s, r, got, m))
    ensures forall x :: x in Delivered(s, r, got, m) ==> Before(s, r, x, m)
  {
    if m > 0 {
      DeliveredOnce(s, r, got, m - 1);
      if s.sockets[m - 1].session == r {
        ArrivedDistinct(s, m - 1, got[m - 1]);
        var a, b := Delivered(s, r, got, m - 1), DataArrived(s.sockets[m - 1], got[m - 1]);
        forall x, y | x in a && y in b ensures Key(x) != Key(y) {
          assert Before(s, r, x, m - 1) && Before(s, r, y, m) && !Before(s, r, y, m - 1);
        }
        DistinctAppend(a, b);
      }
    }
  }

  // ----- nothing is missing once everything has arrived -----

  ghost predicate AllCompleted(s: State, r: nat) {
    r < |s.objects| && forall n :: 0 <= n < |s.objects[r].fates| ==> s.objects[r].fates[n].Completed?
  }

  ghost predicate AllArrived(s: State, got: seq<nat>) {
    |got| == |s.sockets| && forall i :: 0 <= i < |got| ==> got[i] >= |s.sockets[i].wire|
  }

  lemma NothingUnfinished(s: State, i: nat)
    requires Invariant(s) && i < |s.sockets| && AllCompleted(s, s.sockets[i].session)
    ensures s.sockets[i].partial == []
  {
    var y := s.sockets[i];
    assert PartialOk(s, i) && UseOk(s, i) && OwnerOk(s, y.owner) && FlightOk(s, y.owner);
  }

  lemma AllOfStream(s: State, i: nat, n: nat, j: nat)
    requires Invariant(s) && i < |s.sockets| && n >= |s.sockets[i].wire| && AllCompleted(s, s.sockets[i].session)
    requires j < |s.sockets[i].done|
    ensures s.sockets[i].done[j].frame in DataArrived(s.sockets[i], n)
  {
    var y, all := s.sockets[i], Carried(s, i);
    assert WireOk(s, i);
    NothingUnfinished(s, i);
    var k := ArrivedFrames(s, i, n);
    WireIsPrefix(s, i);
    CarriedAt(s, i, 0);
    CarriedAt(s, i, j + 1);
    assert DataArrived(y, n)[j] == y.done[j].frame;
  }

  lemma {:induction false} InDelivered(s: State, r: nat, got: seq<nat>, m: nat, i: nat, x: seq<byte>)
    requires i < m <= |s.sockets| && m <= |got|
    requires s.sockets[i].session == r && x in DataArrived(s.sockets[i], got[i])
    ensures x in Delivered(s, r, got, m)
  {
    if i < m - 1 {
      InDelivered(s, r, got, m - 1, i, x);
    }
  }

  lemma NothingMissing(s: State, r: nat, got: seq<nat>, n: nat)
    requires Invariant(s) && AllCompleted(s, r) && AllArrived(s, got)
    requires n < |s.objects[r].log|
    ensures s.objects[r].log[n].frame in Delivered(s, r, got, |s.sockets|)
  {
    assert CounterOk(s, r) && NumberOk(s, r, n);
    var f := s.objects[r].fates[n];
    assert DoneOk(s, f.socket, f.index);
    AllOfStream(s, f.socket, got[f.socket], f.index);
    InDelivered(s, r, got, |s.sockets|, f.socket, s.objects[r].log[n].frame);
  }

  // ----- arrival in any order -----

  lemma DistinctInAnyOrder(log: seq<Entry>, frames: seq<seq<byte>>, arrived: seq<seq<byte>>)
    requires Distinct(frames) && AllLogged(log, frames) && Rearranged(arrived, frames)
    ensures Distinct(arrived) && AllLogged(log, arrived)
  {
    SameMembers(arrived, frames);
    forall a, b | 0 <= a < b < |arrived| ensures Key(arrived[a]) != Key(arrived[b]) {
      if Key(arrived[a]) == Key(arrived[b]) {
        assert arrived[a] in arrived && arrived[b] in arrived;
        assert Logged(log, arrived[a]) && Logged(log, arrived[b]);
        TwoOccurrences(arrived, a, b);
        DistinctOccurOnce(frames, arrived[a]);
        assert false;
      }
    }
  }

  // ----- queues -----

  lemma {:induction false} HandedIsPart(handed: seq<Handed>, r: nat)
    ensures Subsequence(Flatten(HandedTo(handed, r)), AllHanded(handed))
    ensures (forall k :: 0 <= k < |handed| ==> handed[k].session == r) ==>
              Flatten(HandedTo(handed, r)) == AllHanded(handed)
  {
    if handed != [] {
      var front, last := handed[..|handed| - 1], handed[|handed| - 1];
      HandedIsPart(front, r);
      if last.session == r {
        FlattenSnoc(HandedTo(front, r), last.datagrams);
        SubsequenceReflexive(last.datagrams);
        SubsequenceAppend(Flatten(HandedTo(front, r)), AllHanded(front), last.datagrams, last.datagrams);
      } else {
        SubsequenceAppend(Flatten(HandedTo(front, r)), AllHanded(front), [], last.datagrams);
        assert HandedTo(front, r) + [] == HandedTo(front, r);
        assert Flatten(HandedTo(front, r)) + [] == Flatten(HandedTo(front, r));
      }
    }
  }

  lemma HandedIsPartOfRead(s: State, r: nat, t: nat)
    requires Invariant(s) && r < |s.objects| && t < |s.senders|
    ensures Subsequence(Flatten(SentBy(s.objects[r].log, t)), s.senders[t].read)
  {
    assert LogOk(s, r, t) && QueueOk(s, t);
    var x := s.senders[t];
    HandedIsPart(x.handed, r);
    var sent, rest := Flatten(HandedTo(x.handed, r)), Unnumbered(x) + x.pending;
    SubsequenceAppend(sent, AllHanded(x.handed), [], rest);
    Associative(AllHanded(x.handed), Unnumbered(x), x.pending);
    assert sent + [] == sent;
  }

  /** Everything queue t has read is in frames that session r numbered. */
  ghost predicate Drained(s: State, r: nat, t: nat) {
    && t < |s.senders| && Unnumbered(s.senders[t]) == [] && s.senders[t].pending == []
    && forall k :: 0 <= k < |s.senders[t].handed| ==> s.senders[t].handed[k].session == r
  }

  /** End to end. In any state of any run, let any amount of the bytes written so far have arrived on
      each stream, and the frames found in them be sorted by their numbers, in whatever order they came.
      No number comes twice, and what came from queue t, datagram by datagram, is what that queue read,
      in order, with none twice and possibly some left out. */
  lemma InOrderAtMostOnce(s: State, r: nat, got: seq<nat>, sorted: seq<seq<byte>>, t: nat)
    requires Reachable(s) && r < |s.objects| && Fits(s, r) && |got| == |s.sockets| && t < |s.senders|
    requires Rearranged(sorted, Delivered(s, r, got, |s.sockets|)) && Sorted(sorted)
    ensures Ascending(sorted)
    ensures Subsequence(Flatten(BatchesFrom(s.objects[r].log, sorted, t)), s.senders[t].read)
  {
    ReachableInvariant(s);
    SortedArrivals(s, r, got, sorted);
    var log := s.objects[r].log;
    FramesAreLong(s, r);
    SortedIsSubsequence(log, sorted, t);
    SubsequenceFlatten(BatchesFrom(log, sorted, t), SentBy(log, t));
    HandedIsPartOfRead(s, r, t);
    SubsequenceTransitive(Flatten(BatchesFrom(log, sorted, t)), Flatten(SentBy(log, t)), s.senders[t].read);
  }

  /** And if no send failed, none is under way, and all bytes have arrived, then a queue all of whose
      datagrams were sent to this session has been received completely. */
  lemma CompleteWhenDrained(s: State, r: nat, got: seq<nat>, sorted: seq<seq<byte>>, t: nat)
    requires Reachable(s) && r < |s.objects| && Fits(s, r) && Drained(s, r, t)
    requires AllCompleted(s, r) && AllArrived(s, got)
    requires Rearranged(sorted, Delivered(s, r, got, |s.sockets|)) && Sorted(sorted)
    ensures Flatten(BatchesFrom(s.objects[r].log, sorted, t)) == s.senders[t].read
  {
    ReachableInvariant(s);
    SortedArrivals(s, r, got, sorted);
    var log, x := s.objects[r].log, s.senders[t];
    FramesAreLong(s, r);
    SameMembers(sorted, Delivered(s, r, got, |s.sockets|));
    forall n | 0 <= n < |log| ensures log[n].frame in sorted {
      NothingMissing(s, r, got, n);
    }
    SortedIsComplete(log, sorted, t);
    assert LogOk(s, r, t) && QueueOk(s, t);
    HandedIsPart(x.handed, r);
    assert x.read == AllHanded(x.handed) + [] + [];
  }

  lemma SortedArrivals(s: State, r: nat, got: seq<nat>, sorted: seq<seq<byte>>)
    requires Invariant(s) && r < |s.objects| && Fits(s, r) && |got| == |s.sockets|
    requires Rearranged(sorted, Delivered(s, r, got, |s.sockets|)) && Sorted(sorted)
    ensures Ascending(sorted) && AllLogged(s.objects[r].log, sorted)
  {
    var delivered, log := Delivered(s, r, got, |s.sockets|), s.objects[r].log;
    DeliveredOnce(s, r, got, |s.sockets|);
    forall x | x in delivered ensures Logged(log, x) {
      assert Before(s, r, x, |s.sockets|);
    }
    DistinctInAnyOrder(log, delivered, sorted);
  }

  lemma FramesAreLong(s: State, r: nat)
    requires Invariant(s) && r < |s.objects| && Fits(s, r)
    ensures forall n: nat :: n < |s.objects[r].log| ==>
              |s.objects[r].log[n].frame| >= HEADER_SIZE && Key(s.objects[r].log[n].frame) == n + 1
  {
    forall n: nat | n < |s.objects[r].log|
      ensures |s.objects[r].log[n].frame| >= HEADER_SIZE && Key(s.objects[r].log[n].frame) == n + 1
    {
      assert CounterOk(s, r) && NumberOk(s, r, n);
    }
  }
}
