/** Runs that show that states the other files speak of do come about: two queue threads and two sockets.

    Each lemma takes a run a few steps further and says what state it has come to, so that a long run is put
    together from short pieces. All of them are possible even under a lock that lets writers go first. */
module SchedulerRuns {
  import opened Bytes
  import opened FrameFormat
  import opened Scheduler
  import opened SchedulerInvariant
  import opened SchedulerSafety
  import opened WriterPreference

  const ID: SessionId := []

  // ----- frames -----

  function Hello(): seq<byte> {
    MAGIC + [VERSION, 158, 0] + seq(HEADER_SIZE - HEADER_INFO_SIZE, _ => 0)
  }

  function Frame(): seq<byte> {
    MAGIC + [VERSION, 161, 0] + seq(HEADER_SIZE - HEADER_INFO_SIZE, _ => 0) + [1, 0, 7]
  }

  lemma HelloIsFrame()
    ensures Hello() != [] && IsFrame(Hello()) && SeqNumOf(Hello()) == INIT_SEQ_NUM
  {
    var h := Hello();
    assert h[SEQ_NUM_OFFSET..SIGNATURE_OFFSET] == seq(SEQ_NUM_SIZE, _ => 0);
    ZeroBytes(SEQ_NUM_SIZE);
    LittleEndianRoundTrip(0, SEQ_NUM_SIZE);
  }

  lemma FrameIsFrame()
    ensures |Frame()| >= HEADER_SIZE && DataFrame(Frame()) && DatagramsOf(Frame()) == [[7]]
  {
    var d: Datagram := [7];
    EncodeBodyCons(d, []);
    assert [d] + [] == [d];
    assert BodyOf(Frame()) == [1, 0, 7] == EncodeBody([d]) + [];
    SplitBodyUnique([d], []);
  }

  // ----- the beginning -----

  function NewSender(): Sender {
    Sender(Batching, [], 0, 0, 0, true, 0, [], [], [])
  }

  /** A socket with init frame `h` that has written `wire`. */
  function SocketAtPlace(h: seq<byte>, pc: SocketPc, wire: seq<byte>): Socket {
    Socket(pc, ID, h, wire, true, false, 0, 0, 0, 0, [], [], 0)
  }

  function Beginning(h: seq<byte>): State {
    State([NewSender(), NewSender()], [SocketAtPlace(h, Greeting, []), SocketAtPlace(h, Greeting, [])], map[], [])
  }

  lemma Start(h: seq<byte>)
    requires IsFrame(h) && SeqNumOf(h) == INIT_SEQ_NUM
    ensures ReachableIfWritersFirst(Beginning(h))
  {
    var s := Beginning(h);
    var none: seq<Step> := [];
    assert Run([s], none) && WritersFirst([s], none) && [s][|none|] == s;
  }

  lemma Go(s: State, step: Step) returns (s': State)
    requires ReachableIfWritersFirst(s) && EnabledIfWritersFirst(s, step)
    ensures ReachableIfWritersFirst(s') && s' == Apply(s, step)
  {
    OneMoreStep(s, step);
    s' := Apply(s, step);
  }

  lemma Greets(h: seq<byte>) returns (s: State)
    requires ReachableIfWritersFirst(Beginning(h)) && h != []
    ensures ReachableIfWritersFirst(s)
    ensures s == Beginning(h).(sockets := [SocketAtPlace(h, Joining, h), SocketAtPlace(h, Greeting, [])])
  {
    hide ReachableIfWritersFirst;
    s := Go(Beginning(h), Greet(0, |h|));
    assert [] + h[0..|h|] == h;
    s := Go(s, Greeted(0));
    assert s.sockets == [SocketAtPlace(h, Joining, h), SocketAtPlace(h, Greeting, [])];
  }

  /** Socket 0 has registered and founded the session. */
  lemma Registered(h: seq<byte>) returns (s: State)
    requires ReachableIfWritersFirst(Beginning(h)) && h != []
    ensures ReachableIfWritersFirst(s)
    ensures s == State([NewSender(), NewSender()], [SocketAtPlace(h, Serving, h), SocketAtPlace(h, Greeting, [])],
                       map[ID := 0], [Session(ID, 1, [0], [], [])])
  {
    hide ReachableIfWritersFirst, Joined;
    s := Greets(h);
    s := Go(s, AskToRegister(0));
    s := Go(s, LockToRegister(0));
    FirstOneJoins(s);
    s := Go(s, Register(0));
    assert s.sockets == [SocketAtPlace(h, Serving, h), SocketAtPlace(h, Greeting, [])];
  }

  lemma FirstOneJoins(s: State)
    requires |s.sockets| == 2 && s.sockets[0].id == ID && s.sessions == map[] && s.objects == []
    ensures Joined(s, 0) == s.(sockets := s.sockets[0 := s.sockets[0].(pc := Serving, session := 0)],
                               sessions := map[ID := 0], objects := [Session(ID, 1, [0], [], [])])
  {
  }

  // ----- one thread sends -----

  /** A thread that has had frame `b` numbered n. */
  function HasNumbered(b: seq<byte>, n: nat): Sender {
    NewSender().(pc := Numbered, buf := b, num := n, read := [[7]], handed := [Handed(0, [[7]])])
  }

  lemma FillsFrame(s: State, t: nat, f: seq<byte>) returns (s': State)
    requires ReachableIfWritersFirst(s) && t < |s.senders| && s.senders[t] == NewSender()
    requires DataFrame(f) && DatagramsOf(f) == [[7]]
    ensures ReachableIfWritersFirst(s')
    ensures s' == s.(senders := s.senders[t := NewSender().(pc := Ready, buf := f, read := [[7]])])
  {
    hide ReachableIfWritersFirst, DatagramsOf, Stamp;
    s' := Go(s, Fetch(t, [7]));
    assert [] + [[7]] == [[7]] + [];
    assert s'.senders[t] == NewSender().(read := [[7]], pending := [[7]]);
    s' := Go(s', CloseBatch(t, f, []));
    assert s'.senders == s.senders[t := s'.senders[t]];
  }

  /** Thread t fills a frame and has it numbered. */
  lemma GetsNumber(s: State, t: nat, f: seq<byte>) returns (s': State)
    requires ReachableIfWritersFirst(s) && t < |s.senders| && s.senders[t] == NewSender()
    requires NobodyPending(s) && NoExclusive(s) && s.sessions == map[ID := 0] && s.objects != []
    requires DataFrame(f) && DatagramsOf(f) == [[7]]
    ensures ReachableIfWritersFirst(s')
    ensures var x := s.objects[0]; var b := Stamp(f, x.nextSeqNum);
            && s' == s.(senders := s.senders[t := HasNumbered(b, x.nextSeqNum)],
                        objects := s.objects[0 := x.(nextSeqNum := x.nextSeqNum + 1, log := x.log + [Entry(t, b)],
                                                     fates := x.fates + [InFlight])])
            && b != []
  {
    hide ReachableIfWritersFirst, Stamp, DatagramsOf;
    StampKeepsFrame(f, s.objects[0].nextSeqNum);
    s' := FillsFrame(s, t, f);
    s' := Go(s', Enter(t));
    s' := Go(s', Number(t, ID));
    var n := s.objects[0].nextSeqNum;
    assert [] + [Handed(0, [[7]])] == [Handed(0, [[7]])];
    assert s'.senders[t] == HasNumbered(Stamp(f, n), n);
    assert s'.senders == s.senders[t := s'.senders[t]];
  }

  /** Thread 0 has written all of its frame b to socket 0 and its send is about to return. */
  function Sent0(h: seq<byte>, b: seq<byte>): State {
    State([HasNumbered(b, 1).(pc := Sending, written := |b|), NewSender()],
          [SocketAtPlace(h, Serving, h + b).(inUse := true, bytesSending := |b|, partial := b, current := 1),
           SocketAtPlace(h, Greeting, [])],
          map[ID := 0], [Session(ID, 2, [0], [Entry(0, b)], [InFlight])])
  }

  lemma SendsFrame(h: seq<byte>, f: seq<byte>) returns (s: State)
    requires h != [] && IsFrame(h) && SeqNumOf(h) == INIT_SEQ_NUM
    requires |f| >= HEADER_SIZE && DataFrame(f) && DatagramsOf(f) == [[7]]
    ensures ReachableIfWritersFirst(s) && s == Sent0(h, Stamp(f, 1)) && Stamp(f, 1) != []
  {
    hide ReachableIfWritersFirst, Stamp, DataFrame, IsFrame, DatagramsOf, SeqNumOf;
    Start(h);
    s := Registered(h);
    s := GetsNumber(s, 0, f);
    var b := Stamp(f, 1);
    assert s.senders == [HasNumbered(b, 1), NewSender()];
    var x := s.objects[0];
    assert x.log == [Entry(0, b)] && x.fates == [InFlight];
    assert s.objects == [x];
    s := Writes(h, b, s);
  }

  lemma Writes(h: seq<byte>, b: seq<byte>, s0: State) returns (s: State)
    requires ReachableIfWritersFirst(s0) && b != []
    requires s0 == State([HasNumbered(b, 1), NewSender()],
                         [SocketAtPlace(h, Serving, h), SocketAtPlace(h, Greeting, [])],
                         map[ID := 0], [Session(ID, 2, [0], [Entry(0, b)], [InFlight])])
    ensures ReachableIfWritersFirst(s) && s == Sent0(h, b)
  {
    hide ReachableIfWritersFirst;
    s := Go(s0, Lock(0));
    s := Go(s, Pick(0, 0));
    s := Go(s, Take(0));
    s := Go(s, LeaveShared(0));
    s := Go(s, Write(0, |b|));
    assert b[0..|b|] == b && [] + b == b;
    assert s.sockets == Sent0(h, b).sockets;
  }

  // ----- a deadlock, if writers went first -----

  /** Thread 1 falls asleep for the stream that thread 0 uses, socket 1 asks for the lock, and thread 0's
      send returns. */
  lemma DeadlockComesAbout() returns (s: State)
    ensures ReachableIfWritersFirst(s) && Stuck(s, 1, 0, 1)
  {
    hide ReachableIfWritersFirst, Hello, Frame, Stamp, DataFrame, IsFrame, DatagramsOf, SeqNumOf;
    var h, f := Hello(), Frame();
    HelloIsFrame();
    FrameIsFrame();
    s := SendsFrame(h, f);
    s := GetsNumber(s, 1, f);
    var b, b2 := Stamp(f, 1), Stamp(f, 2);
    assert s.senders == [Sent0(h, b).senders[0], HasNumbered(b2, 2)];
    var x := s.objects[0];
    assert x.log == [Entry(0, b), Entry(1, b2)] && x.fates == [InFlight, InFlight];
    assert s.objects == [x];
    s := FallsAsleep(h, b, b2, s);
    ReachableAnyway(s);
    SendersGetStuck(s, 1, 0, 1);
    s := Go(s, Complete(0));
  }

  lemma FallsAsleep(h: seq<byte>, b: seq<byte>, b2: seq<byte>, s0: State) returns (s: State)
    requires ReachableIfWritersFirst(s0) && h != [] && b != []
    requires s0 == Sent0(h, b).(senders := [Sent0(h, b).senders[0], HasNumbered(b2, 2)],
                                objects := [Session(ID, 3, [0], [Entry(0, b), Entry(1, b2)], [InFlight, InFlight])])
    ensures ReachableIfWritersFirst(s)
    ensures |s.senders| == 2 && Waits(s.senders[1].pc) && s.senders[1].socket == 0
    ensures s.senders[0] == s0.senders[0] && |s.sockets| == 2 && Pending(s.sockets[1].pc)
  {
    hide ReachableIfWritersFirst;
    s := Go(s0, Lock(1));
    s := Go(s, Wait(1));
    s := Go(s, Greet(1, |h|));
    s := Go(s, Greeted(1));
    s := Go(s, AskToRegister(1));
  }

  // ----- a session used after it was erased -----

  /** The only socket thread leaves while thread 0 still sends on its stream; when thread 0 releases it, the
      session is gone from the map. */
  lemma ErasedSessionIsUsed() returns (s: State)
    ensures Reachable(s) && AtPc(s, 0, Relocked) && HasSession(s, 0)
    ensures s.sessions == map[] && s.objects[s.senders[0].session].streams == [] && Enabled(s, Release(0, 0))
  {
    hide ReachableIfWritersFirst, Hello, Frame, Stamp, DataFrame, IsFrame, DatagramsOf, SeqNumOf;
    var h, f := Hello(), Frame();
    HelloIsFrame();
    FrameIsFrame();
    s := SendsFrame(h, f);
    s := Leaves(h, Stamp(f, 1), s);
    s := Releases(h, Stamp(f, 1), s);
    ReachableAnyway(s);
  }

  /** Socket 0 is gone, and the session with it. */
  function Gone0(h: seq<byte>, b: seq<byte>): State {
    State([HasNumbered(b, 1).(pc := Sending, written := |b|), NewSender()],
          [SocketAtPlace(h, Ended, h + b).(usable := false, inUse := true, bytesSending := |b|, partial := b,
                                           current := 1),
           SocketAtPlace(h, Greeting, [])],
          map[], [Session(ID, 2, [], [Entry(0, b)], [InFlight])])
  }

  lemma StopsServing(h: seq<byte>, b: seq<byte>, s0: State) returns (s: State)
    requires ReachableIfWritersFirst(s0) && s0 == Sent0(h, b)
    ensures ReachableIfWritersFirst(s)
    ensures s == s0.(sockets := s0.sockets[0 := s0.sockets[0].(pc := Leaving, usable := false)])
  {
    hide ReachableIfWritersFirst;
    s := Go(s0, StopServing(0));
    s := Go(s, CloseSocket(0));
    assert s.sockets == s0.sockets[0 := s0.sockets[0].(pc := Leaving, usable := false)];
  }

  lemma Leaves(h: seq<byte>, b: seq<byte>, s0: State) returns (s: State)
    requires ReachableIfWritersFirst(s0) && s0 == Sent0(h, b)
    ensures ReachableIfWritersFirst(s) && s == Gone0(h, b)
  {
    hide ReachableIfWritersFirst, Left;
    s := StopsServing(h, b, s0);
    s := Go(s, AskToLeave(0));
    s := Go(s, LockToLeave(0));
    LastOneLeaves(s);
    s := Go(s, Unregister(0));
    assert s.sockets == Gone0(h, b).sockets && s.objects == Gone0(h, b).objects;
  }

  lemma LastOneLeaves(s: State)
    requires |s.sockets| == 2 && s.sockets[0].id == ID
    requires s.sessions == map[ID := 0] && |s.objects| == 1 && s.objects[0].streams == [0]
    ensures Left(s, 0) == s.(sockets := s.sockets[0 := s.sockets[0].(pc := Ended)], sessions := map[],
                             objects := [s.objects[0].(streams := [])])
  {
    assert [0][1..] == [];
    assert s.sessions - {ID} == map[];
  }

  lemma Releases(h: seq<byte>, b: seq<byte>, s0: State) returns (s: State)
    requires ReachableIfWritersFirst(s0) && s0 == Gone0(h, b)
    ensures ReachableIfWritersFirst(s) && AtPc(s, 0, Relocked) && HasSession(s, 0)
    ensures s.sessions == map[] && s.objects[s.senders[0].session].streams == [] && Enabled(s, Release(0, 0))
  {
    hide ReachableIfWritersFirst;
    s := Go(s0, Complete(0));
    s := Go(s, Reenter(0));
    s := Go(s, RelockToRelease(0));
  }
}
