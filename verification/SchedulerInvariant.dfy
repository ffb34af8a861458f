/** What every run of the scheduler keeps. */
module SchedulerInvariant {
  import opened Bytes
  import opened Lists
  import opened FrameFormat
  import opened Scheduler

  // ----- locks -----

  /** The map's lock is held by one socket thread or by queue threads, never by both; a session's
      mutex has at most one holder. */
  ghost predicate Locks(s: State) {
    && (forall i, t :: SharedOk(s, i, t))
    && (forall i, j :: ExclusiveOk(s, i, j))
    && (forall t, u :: MutexOk(s, t, u))
  }

  predicate SharedOk(s: State, i: nat, t: nat) {
    i < |s.sockets| && t < |s.senders| && HoldsExclusive(s.sockets[i].pc) ==> !HoldsShared(s.senders[t].pc)
  }

  predicate ExclusiveOk(s: State, i: nat, j: nat) {
    i < j < |s.sockets| && HoldsExclusive(s.sockets[i].pc) ==> !HoldsExclusive(s.sockets[j].pc)
  }

  predicate MutexOk(s: State, t: nat, u: nat) {
    t < u < |s.senders| && HoldsMutex(s.senders[t].pc) && HoldsMutex(s.senders[u].pc) ==>
      s.senders[t].session != s.senders[u].session
  }

  // ----- sessions and their streams -----

  predicate Listed(pc: SocketPc) {
    pc in {Serving, Closing, Leaving, AskedToLeave, Unregistering}
  }

  ghost predicate NoRepeats(streams: seq<nat>) {
    forall j, k :: 0 <= j < k < |streams| ==> streams[j] != streams[k]
  }

  ghost predicate InMapOk(s: State, id: SessionId) {
    id in s.sessions ==>
      && s.sessions[id] < |s.objects| && s.objects[s.sessions[id]].id == id
      && s.objects[s.sessions[id]].streams != []
  }

  ghost predicate ObjectOk(s: State, r: nat) {
    r < |s.objects| ==>
      && (s.objects[r].streams != [] ==> s.objects[r].id in s.sessions && s.sessions[s.objects[r].id] == r)
      && NoRepeats(s.objects[r].streams)
  }

  ghost predicate StreamOk(s: State, r: nat, i: nat) {
    r < |s.objects| && i in s.objects[r].streams ==>
      i < |s.sockets| && Listed(s.sockets[i].pc) && s.sockets[i].session == r
  }

  ghost predicate ListedOk(s: State, i: nat) {
    i < |s.sockets| && Listed(s.sockets[i].pc) ==>
      && s.sockets[i].session < |s.objects|
      && i in s.objects[s.sockets[i].session].streams
      && s.objects[s.sockets[i].session].id == s.sockets[i].id
  }

  /** At most one session is in the map; the sessions in the map are exactly those with streams; a
      socket is in the list of the session it joined from registration to unregistration. */
  ghost predicate Registry(s: State) {
    && (forall a, b :: a in s.sessions && b in s.sessions ==> a == b)
    && (forall id :: InMapOk(s, id))
    && (forall r :: ObjectOk(s, r))
    && (forall r, i :: StreamOk(s, r, i))
    && (forall i :: ListedOk(s, i))
  }

  /** Between getting its number and dropping the map's lock for the send. */
  predicate Choosing(pc: SenderPc) {
    pc in {Numbered, Locked, Picked, Taken, Waiting, Woken, Rechecking}
  }

  /** A thread that waits, or has been woken up, is after the first stream of its session. */
  predicate Waits(pc: SenderPc) {
    pc in {Waiting, Woken, Rechecking}
  }

  /** A thread chooses from the session in the map, the only one with streams. */
  ghost predicate ChoiceOk(s: State, t: nat) {
    t < |s.senders| && Choosing(s.senders[t].pc) ==>
      var x := s.senders[t];
      && x.session < |s.objects| && s.objects[x.session].streams != []
      && (Waits(x.pc) ==> x.socket == s.objects[x.session].streams[0])
      && (x.pc == Picked ==> x.socket in s.objects[x.session].streams && !InUse(s, x.socket))
  }

  ghost predicate Choices(s: State) {
    forall t :: ChoiceOk(s, t)
  }

  /** Of a session's streams, in the order in which they registered, i is the first that is not in use. */
  ghost predicate IsFirstFree(s: State, r: nat, i: nat) {
    r < |s.objects| && exists k: nat :: FreeAt(s, r, k) && s.objects[r].streams[k] == i
  }

  ghost predicate FreeAt(s: State, r: nat, k: nat) {
    && r < |s.objects| && k < |s.objects[r].streams| && !InUse(s, s.objects[r].streams[k])
    && forall j :: 0 <= j < k ==> InUse(s, s.objects[r].streams[j])
  }

  ghost predicate PickOk(s: State, t: nat) {
    AtPc(s, t, Picked) ==> IsFirstFree(s, s.senders[t].session, s.senders[t].socket)
  }

  /** Whoever has picked a stream has picked the first free one, and it stays the first free one. */
  ghost predicate Picks(s: State) {
    forall t :: PickOk(s, t)
  }

  // ----- who owns which stream -----

  /** From marking the stream to releasing it. */
  predicate Owns(pc: SenderPc) {
    pc in {Taken, Sending, Finishing, Reentered, Relocked}
  }

  function TotalSent(done: seq<Sent>): nat {
    if done == [] then 0 else TotalSent(done[..|done| - 1]) + |done[|done| - 1].frame|
  }

  ghost predicate OwnerOk(s: State, t: nat) {
    t < |s.senders| && Owns(s.senders[t].pc) ==>
      var x := s.senders[t];
      && x.socket < |s.sockets| && s.sockets[x.socket].inUse && s.sockets[x.socket].owner == t
      && s.sockets[x.socket].bytesSending == |x.buf| && s.sockets[x.socket].session == x.session
  }

  ghost predicate UseOk(s: State, i: nat) {
    i < |s.sockets| ==>
      var y := s.sockets[i];
      && (y.inUse ==> y.owner < |s.senders| && Owns(s.senders[y.owner].pc) && s.senders[y.owner].socket == i)
      && (y.inUse ==> Listed(y.pc) || y.pc == Ended)
      && (!y.inUse ==> y.bytesSending == 0)
      && y.bytesSent == TotalSent(y.done)
  }

  /** A stream is in use iff exactly one thread owns it; `bytesSending` is the size of that thread's
      frame or 0; `bytesSent` is the total size of the frames completed on it. */
  ghost predicate Ownership(s: State) {
    (forall t :: OwnerOk(s, t)) && (forall i :: UseOk(s, i))
  }

  // ----- waking up -----

  /** Thread u will look at stream i of the session before it can sleep. */
  predicate WillLook(s: State, u: nat, session: nat, i: nat) {
    && u < |s.senders| && s.senders[u].session == session
    && (s.senders[u].pc == Woken || s.senders[u].pc == Rechecking
        || (s.senders[u].pc == Picked && s.senders[u].socket == i))
  }

  ghost predicate SleepOk(s: State, t: nat) {
    AtPc(s, t, Waiting) && !InUse(s, s.senders[t].socket) ==>
      exists u :: WillLook(s, u, s.senders[t].session, s.senders[t].socket)
  }

  /** Whenever a stream somebody sleeps for is free, some other thread is already awake to take it. */
  ghost predicate NoLostWakeup(s: State) {
    forall t :: SleepOk(s, t)
  }

  // ----- sequence numbers -----

  predicate HasFlight(pc: SenderPc) {
    Choosing(pc) || pc == Sending
  }

  predicate NumberedFrame(frame: seq<byte>, n: nat) {
    DataFrame(frame) && (n < Range(SEQ_NUM_SIZE) ==> SeqNumOf(frame) == n)
  }

  ghost predicate CounterOk(s: State, r: nat) {
    r < |s.objects| ==>
      s.objects[r].nextSeqNum == |s.objects[r].log| + 1 && |s.objects[r].fates| == |s.objects[r].log|
  }

  ghost predicate FateOk(s: State, r: nat, n: nat)
    requires r < |s.objects| && n < |s.objects[r].log| && n < |s.objects[r].fates|
  {
    match s.objects[r].fates[n]
    case InFlight =>
      var t := s.objects[r].log[n].sender;
      t < |s.senders| && HasFlight(s.senders[t].pc) && s.senders[t].session == r && s.senders[t].num == n + 1
    case Completed(i, k) =>
      i < |s.sockets| && k < |s.sockets[i].done| && s.sockets[i].done[k].num == n + 1 && s.sockets[i].session == r
    case Lost => true
  }

  ghost predicate NumberOk(s: State, r: nat, n: nat) {
    r < |s.objects| && n < |s.objects[r].log| && n < |s.objects[r].fates| ==>
      && NumberedFrame(s.objects[r].log[n].frame, n + 1) && s.objects[r].log[n].sender < |s.senders|
      && FateOk(s, r, n)
  }

  ghost predicate FlightOk(s: State, t: nat) {
    t < |s.senders| && HasFlight(s.senders[t].pc) ==>
      var x := s.senders[t];
      && x.session < |s.objects|
      && 1 <= x.num <= |s.objects[x.session].log| && x.num <= |s.objects[x.session].fates|
      && s.objects[x.session].log[x.num - 1] == Entry(t, x.buf)
      && s.objects[x.session].fates[x.num - 1] == InFlight
  }

  ghost predicate DoneOk(s: State, i: nat, k: nat) {
    i < |s.sockets| && k < |s.sockets[i].done| ==>
      var r, d := s.sockets[i].session, s.sockets[i].done[k];
      && (Listed(s.sockets[i].pc) || s.sockets[i].pc == Ended)
      && r < |s.objects| && 1 <= d.num <= |s.objects[r].log| && d.num <= |s.objects[r].fates|
      && s.objects[r].log[d.num - 1].frame == d.frame
      && s.objects[r].fates[d.num - 1] == Completed(i, k)
  }

  /** Numbers 1 .. nextSeqNum - 1 have been given out, once each, and each is exactly one of: in flight
      at the thread that got it, completed at one place of one stream, or lost by a failed send. */
  ghost predicate Numbers(s: State) {
    && (forall r :: CounterOk(s, r))
    && (forall r, n :: NumberOk(s, r, n))
    && (forall t :: FlightOk(s, t))
    && (forall i, k :: DoneOk(s, i, k))
  }

  // ----- bytes on the sockets -----

  function FramesOf(done: seq<Sent>): seq<seq<byte>> {
    if done == [] then [] else FramesOf(done[..|done| - 1]) + [done[|done| - 1].frame]
  }

  /** A socket's bytes are the init frame, then the completed frames in order, then part of one more. */
  ghost predicate WireShape(wire: seq<byte>, hello: seq<byte>, done: seq<Sent>, partial: seq<byte>) {
    if |wire| < |hello| then wire <= hello && done == [] && partial == []
    else wire == hello + Flatten(FramesOf(done)) + partial
  }

  /** What is written after the completed frames is part of one frame, which the owner of the stream is
      sending, or which was lost by a failed send after which nothing more is written. */
  ghost predicate PartialOk(s: State, i: nat) {
    i < |s.sockets| && s.sockets[i].partial != [] ==>
      var y := s.sockets[i];
      && y.session < |s.objects| && (Listed(y.pc) || y.pc == Ended)
      && 1 <= y.current <= |s.objects[y.session].log| && y.current <= |s.objects[y.session].fates|
      && var frame := s.objects[y.session].log[y.current - 1].frame;
      && y.partial <= frame
      && (|| (y.inUse && y.owner < |s.senders| && s.senders[y.owner].pc == Sending
              && s.senders[y.owner].num == y.current && s.senders[y.owner].written == |y.partial|)
          || (s.objects[y.session].fates[y.current - 1] == Lost && |y.partial| < |frame| && !y.usable))
  }

  /** One socket: nothing but the greeting goes out before it is complete. */
  ghost predicate SocketWire(y: Socket) {
    && WireShape(y.wire, y.hello, y.done, y.partial)
    && (y.pc == Greeting ==> y.done == [] && y.partial == [] && |y.wire| <= |y.hello|)
    && ((y.pc != Greeting && y.pc != Ended) || y.inUse ==> |y.wire| >= |y.hello|)
    && IsFrame(y.hello) && SeqNumOf(y.hello) == INIT_SEQ_NUM
  }

  ghost predicate WireOk(s: State, i: nat) {
    i < |s.sockets| ==> SocketWire(s.sockets[i])
  }

  ghost predicate SendOk(s: State, t: nat) {
    t < |s.senders| && (s.senders[t].pc == Sending || s.senders[t].pc == Taken) && s.senders[t].socket < |s.sockets| ==>
      var x, y := s.senders[t], s.sockets[s.senders[t].socket];
      && x.written <= |x.buf| && (x.pc == Taken ==> x.written == 0)
      && (x.written > 0 ==> y.partial == x.buf[..x.written] && y.current == x.num)
      && (x.written == 0 && y.usable ==> y.partial == [])
  }

  ghost predicate Wires(s: State) {
    && (forall i :: WireOk(s, i))
    && (forall i :: PartialOk(s, i))
    && (forall t :: SendOk(s, t))
  }

  // ----- datagrams -----

  /** The datagrams of the frame in hand that has no number yet. */
  function Unnumbered(x: Sender): seq<Datagram> {
    if (x.pc == Ready || x.pc == Entered) && |x.buf| >= HEADER_SIZE then DatagramsOf(x.buf) else []
  }

  function AllHanded(handed: seq<Handed>): seq<Datagram> {
    if handed == [] then [] else AllHanded(handed[..|handed| - 1]) + handed[|handed| - 1].datagrams
  }

  function HandedTo(handed: seq<Handed>, session: nat): seq<seq<Datagram>> {
    if handed == [] then []
    else HandedTo(handed[..|handed| - 1], session)
         + if handed[|handed| - 1].session == session then [handed[|handed| - 1].datagrams] else []
  }

  function SentBy(log: seq<Entry>, t: nat): seq<seq<Datagram>> {
    if log == [] then []
    else
      var e := log[|log| - 1];
      SentBy(log[..|log| - 1], t) + if e.sender == t && |e.frame| >= HEADER_SIZE then [DatagramsOf(e.frame)] else []
  }

  ghost predicate QueueOk(s: State, t: nat) {
    t < |s.senders| ==>
      var x := s.senders[t];
      && x.read == AllHanded(x.handed) + Unnumbered(x) + x.pending
      && (x.pc != Batching && x.pc != Stopped ==> DataFrame(x.buf))
      && forall k :: 0 <= k < |x.handed| ==> x.handed[k].session < |s.objects|
  }

  ghost predicate LogOk(s: State, r: nat, t: nat) {
    r < |s.objects| && t < |s.senders| ==> SentBy(s.objects[r].log, t) == HandedTo(s.senders[t].handed, r)
  }

  /** A queue's datagrams are, in order, in numbered frames, in the frame in hand, or not in a frame
      yet; and a session's log holds for each queue exactly the frames it handed to that session. */
  ghost predicate Queues(s: State) {
    (forall t :: QueueOk(s, t)) && (forall r, t :: LogOk(s, r, t))
  }

  /** Everything above. */
  ghost predicate Invariant(s: State) {
    && Locks(s) && Registry(s) && Choices(s) && Picks(s) && Ownership(s) && NoLostWakeup(s)
    && Numbers(s) && Wires(s) && Queues(s)
  }
}
