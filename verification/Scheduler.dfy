/** The sending side of the socket producer/consumer as a state machine.

    Queue threads number a frame, pick a free stream of the session (or wait for the first one), write
    the frame in pieces and release the stream; socket threads greet the peer, register their stream
    with a session, serve it and unregister it. One step is what a thread does between two points at
    which another thread can interfere. Sessions are objects that outlive their entry in the map. */
module Scheduler {
  import opened Bytes
  import opened FrameFormat

  type SessionId = seq<byte>

  /** Where a queue thread is in handing a frame to the sockets. */
  datatype SenderPc =
    | Batching    // filling the next frame
    | Ready       // a closed frame in hand
    | Entered     // holds the map's lock, shared
    | Numbered    // the frame has its number; waits for the session's mutex
    | Locked      // holds the session's mutex too
    | Picked      // has found the stream to use
    | Taken       // has marked it and dropped the mutex
    | Sending     // has dropped the map's lock; writes
    | Waiting     // asleep on the session's condition variable, mutex dropped, map's lock kept
    | Woken       // woken up, wants the mutex back
    | Rechecking  // has it back and looks at its stream again
    | Finishing   // the send has returned or thrown; wants the map's lock
    | Reentered   // has it, wants the mutex
    | Relocked    // has both and releases the stream
    | Stopped     // the thread has ended

  datatype Handed = Handed(session: nat, datagrams: seq<Datagram>)

  datatype Sender = Sender(
    pc: SenderPc,
    buf: seq<byte>,         // the frame in hand
    session: nat,           // the session object it refers to
    socket: nat,            // the stream picked, owned or waited for
    written: nat,           // bytes of the frame written so far
    ok: bool,               // the send did not throw
    num: nat,               // history: the number the frame got
    read: seq<Datagram>,    // history: everything read from its queue
    pending: seq<Datagram>, // history: what of that is in no frame
    handed: seq<Handed>)    // history: the frames that got a number

  /** Where a socket thread is. */
  datatype SocketPc =
    | Greeting       // initial exchange
    | Joining        // is about to register
    | AskedToJoin    // has asked for the map's lock, exclusively
    | Registering    // has it
    | Serving        // receive loop
    | Closing        // the loop has thrown
    | Leaving        // has closed the descriptor; is about to unregister
    | AskedToLeave   // has asked for the map's lock, exclusively
    | Unregistering  // has it
    | Ended

  datatype Sent = Sent(num: nat, frame: seq<byte>)

  datatype Socket = Socket(
    pc: SocketPc,
    id: SessionId,        // the session agreed on in the exchange
    hello: seq<byte>,     // the init frame sent in the exchange
    wire: seq<byte>,      // every byte written so far
    usable: bool,         // neither closed nor failed
    inUse: bool,
    bytesSending: nat,
    bytesSent: nat,
    session: nat,         // the session object joined
    owner: nat,           // history: who last marked it in use
    done: seq<Sent>,      // history: frames whose send returned, in order
    partial: seq<byte>,   // history: what was written after those
    current: nat)         // history: the number of the frame `partial` belongs to

  datatype Entry = Entry(sender: nat, frame: seq<byte>)
  datatype Fate = InFlight | Completed(socket: nat, index: nat) | Lost

  datatype Session = Session(
    id: SessionId,
    nextSeqNum: nat,
    streams: seq<nat>,
    log: seq<Entry>,   // history: who sent frame n + 1, and its bytes
    fates: seq<Fate>)  // history: what became of it

  datatype State = State(
    senders: seq<Sender>,
    sockets: seq<Socket>,
    sessions: map<SessionId, nat>,
    objects: seq<Session>)

  // ----- locks, as functions of where the threads are -----

  predicate HoldsShared(pc: SenderPc) {
    pc in {Entered, Numbered, Locked, Picked, Taken, Waiting, Woken, Rechecking, Reentered, Relocked}
  }

  predicate HoldsMutex(pc: SenderPc) {
    pc in {Locked, Picked, Rechecking, Relocked}
  }

  predicate HoldsExclusive(pc: SocketPc) {
    pc == Registering || pc == Unregistering
  }

  ghost predicate NoExclusive(s: State) {
    forall i :: 0 <= i < |s.sockets| ==> !HoldsExclusive(s.sockets[i].pc)
  }

  ghost predicate NoShared(s: State) {
    forall t :: 0 <= t < |s.senders| ==> !HoldsShared(s.senders[t].pc)
  }

  ghost predicate MutexFree(s: State, session: nat) {
    forall t :: 0 <= t < |s.senders| && HoldsMutex(s.senders[t].pc) ==> s.senders[t].session != session
  }

  ghost predicate NobodyWaits(s: State, session: nat) {
    forall t :: 0 <= t < |s.senders| && s.senders[t].pc == Waiting ==> s.senders[t].session != session
  }

  // ----- steps -----

  datatype Step =
    // queue thread t
    | Fetch(t: nat, d: Datagram)
    | CloseBatch(t: nat, buf: seq<byte>, keep: seq<Datagram>)
    | StopQueue(t: nat)
    | Enter(t: nat)
    | Refuse(t: nat)                      // no session: not yet ready
    | Number(t: nat, id: SessionId)
    | Lock(t: nat)
    | Pick(t: nat, k: nat)                // the k-th stream is the first free one
    | Wait(t: nat)
    | WakeSpuriously(t: nat)
    | Relock(t: nat)
    | Recheck(t: nat)
    | Take(t: nat)
    | LeaveShared(t: nat)
    | Write(t: nat, n: nat)
    | FailWrite(t: nat)
    | Complete(t: nat)
    | Reenter(t: nat)
    | RelockToRelease(t: nat)
    | Release(t: nat, woken: nat)         // notify_one wakes sender `woken`, or nobody if that is t
    // socket thread i
    | Greet(i: nat, n: nat)
    | Greeted(i: nat)
    | GreetFails(i: nat)
    | AskToRegister(i: nat)
    | LockToRegister(i: nat)
    | Register(i: nat)
    | StopServing(i: nat)
    | CloseSocket(i: nat)
    | AskToLeave(i: nat)
    | LockToLeave(i: nat)
    | Unregister(i: nat)

  predicate InUse(s: State, i: nat) {
    i < |s.sockets| && s.sockets[i].inUse
  }

  predicate AtPc(s: State, t: nat, pc: SenderPc) {
    t < |s.senders| && s.senders[t].pc == pc
  }

  predicate SocketAt(s: State, i: nat, pc: SocketPc) {
    i < |s.sockets| && s.sockets[i].pc == pc
  }

  predicate HasSession(s: State, t: nat) {
    t < |s.senders| && s.senders[t].session < |s.objects|
  }

  predicate HasSocket(s: State, t: nat) {
    t < |s.senders| && s.senders[t].socket < |s.sockets|
  }

  /** A frame as the batching loop closes it. */
  predicate DataFrame(frame: seq<byte>) {
    IsFrame(frame) && Tiled(BodyOf(frame))
  }

  ghost predicate Enabled(s: State, step: Step) {
    match step
    case Fetch(t, d) => AtPc(s, t, Batching) && d != []
    case CloseBatch(t, buf, keep) =>
      && AtPc(s, t, Batching)
      && DataFrame(buf) && DatagramsOf(buf) != []
      && s.senders[t].pending == DatagramsOf(buf) + keep
    case StopQueue(t) => AtPc(s, t, Batching) || (AtPc(s, t, Ready) && DataFrame(s.senders[t].buf))
    case Enter(t) => AtPc(s, t, Ready) && NoExclusive(s)
    case Refuse(t) => AtPc(s, t, Entered) && s.sessions == map[]
    case Number(t, id) =>
      && AtPc(s, t, Entered) && id in s.sessions && s.sessions[id] < |s.objects|
      && |s.senders[t].buf| >= HEADER_SIZE
    case Lock(t) => AtPc(s, t, Numbered) && MutexFree(s, s.senders[t].session)
    case Pick(t, k) =>
      && AtPc(s, t, Locked) && HasSession(s, t)
      && (var streams := s.objects[s.senders[t].session].streams;
          && k < |streams| && !InUse(s, streams[k])
          && forall j :: 0 <= j < k ==> InUse(s, streams[j]))
    case Wait(t) =>
      && AtPc(s, t, Locked) && HasSession(s, t)
      && (var streams := s.objects[s.senders[t].session].streams;
          streams != [] && forall j :: 0 <= j < |streams| ==> InUse(s, streams[j]))
    case WakeSpuriously(t) => AtPc(s, t, Waiting)
    case Relock(t) => AtPc(s, t, Woken) && MutexFree(s, s.senders[t].session)
    case Recheck(t) => AtPc(s, t, Rechecking)
    case Take(t) => AtPc(s, t, Picked) && HasSocket(s, t)
    case LeaveShared(t) => AtPc(s, t, Taken)
    case Write(t, n) =>
      && AtPc(s, t, Sending) && HasSocket(s, t) && s.sockets[s.senders[t].socket].usable
      && 0 < n && s.senders[t].written + n <= |s.senders[t].buf|
    case FailWrite(t) =>
      && AtPc(s, t, Sending) && HasSocket(s, t) && HasSession(s, t)
      && s.senders[t].written < |s.senders[t].buf|
    case Complete(t) =>
      && AtPc(s, t, Sending) && HasSocket(s, t) && HasSession(s, t)
      && s.senders[t].written == |s.senders[t].buf|
    case Reenter(t) => AtPc(s, t, Finishing) && NoExclusive(s)
    case RelockToRelease(t) => AtPc(s, t, Reentered) && MutexFree(s, s.senders[t].session)
    case Release(t, woken) =>
      && AtPc(s, t, Relocked) && HasSocket(s, t)
      && (if woken == t then NobodyWaits(s, s.senders[t].session)
          else AtPc(s, woken, Waiting) && s.senders[woken].session == s.senders[t].session)
    case Greet(i, n) => SocketAt(s, i, Greeting) && 0 < n && |s.sockets[i].wire| + n <= |s.sockets[i].hello|
    case Greeted(i) => SocketAt(s, i, Greeting) && |s.sockets[i].wire| == |s.sockets[i].hello|
    case GreetFails(i) => SocketAt(s, i, Greeting)
    case AskToRegister(i) => SocketAt(s, i, Joining)
    case LockToRegister(i) => SocketAt(s, i, AskedToJoin) && NoShared(s) && NoExclusive(s)
    case Register(i) =>
      SocketAt(s, i, Registering) && (s.sockets[i].id in s.sessions ==> s.sessions[s.sockets[i].id] < |s.objects|)
    case StopServing(i) => SocketAt(s, i, Serving)
    case CloseSocket(i) => SocketAt(s, i, Closing)
    case AskToLeave(i) => SocketAt(s, i, Leaving)
    case LockToLeave(i) => SocketAt(s, i, AskedToLeave) && NoShared(s) && NoExclusive(s)
    case Unregister(i) =>
      SocketAt(s, i, Unregistering) && s.sockets[i].id in s.sessions && s.sessions[s.sockets[i].id] < |s.objects|
  }

  function SetSender(s: State, t: nat, sender: Sender): State
    requires t < |s.senders|
  {
    s.(senders := s.senders[t := sender])
  }

  function SetSocket(s: State, i: nat, socket: Socket): State
    requires i < |s.sockets|
  {
    s.(sockets := s.sockets[i := socket])
  }

  function SetObject(s: State, r: nat, session: Session): State
    requires r < |s.objects|
  {
    s.(objects := s.objects[r := session])
  }

  function Goto(s: State, t: nat, pc: SenderPc): State
    requires t < |s.senders|
  {
    SetSender(s, t, s.senders[t].(pc := pc))
  }

  function SocketGoto(s: State, i: nat, pc: SocketPc): State
    requires i < |s.sockets|
  {
    SetSocket(s, i, s.sockets[i].(pc := pc))
  }

  /** Erasing a stream from the list. */
  function Without(streams: seq<nat>, i: nat): seq<nat> {
    if streams == [] then []
    else if streams[0] == i then Without(streams[1..], i)
    else [streams[0]] + Without(streams[1..], i)
  }

  function Numbering(s: State, t: nat, r: nat): State
    requires t < |s.senders| && r < |s.objects| && |s.senders[t].buf| >= HEADER_SIZE
  {
    var sender, joined := s.senders[t], s.objects[r];
    var buf := Stamp(sender.buf, joined.nextSeqNum);
    var s1 := SetObject(s, r, joined.(
                        nextSeqNum := joined.nextSeqNum + 1,
                        log := joined.log + [Entry(t, buf)],
                        fates := joined.fates + [InFlight]));
    SetSender(s1, t, sender.(
              pc := Numbered, buf := buf, session := r, num := joined.nextSeqNum,
              handed := sender.handed + [Handed(r, DatagramsOf(sender.buf))]))
  }

  function SetFate(s: State, t: nat, fate: Fate): State
    requires HasSession(s, t)
  {
    var r, n := s.senders[t].session, s.senders[t].num;
    if 1 <= n <= |s.objects[r].fates| then
      SetObject(s, r, s.objects[r].(fates := s.objects[r].fates[n - 1 := fate]))
    else s
  }

  function Taking(s: State, t: nat): State
    requires HasSocket(s, t)
  {
    var i := s.senders[t].socket;
    var socket := s.sockets[i];
    var s1 := SetSocket(s, i, socket.(
                        inUse := true, bytesSending := socket.bytesSending + |s.senders[t].buf|, owner := t));
    SetSender(s1, t, s.senders[t].(pc := Taken, written := 0))
  }

  function Writing(s: State, t: nat, n: nat): State
    requires HasSocket(s, t) && s.senders[t].written + n <= |s.senders[t].buf|
  {
    var i, sender := s.senders[t].socket, s.senders[t];
    var socket, bytes := s.sockets[i], sender.buf[sender.written..sender.written + n];
    var s1 := SetSocket(s, i, socket.(
                        wire := socket.wire + bytes, partial := socket.partial + bytes, current := sender.num));
    SetSender(s1, t, sender.(written := sender.written + n))
  }

  function Completing(s: State, t: nat): State
    requires HasSocket(s, t) && HasSession(s, t)
  {
    var i, sender := s.senders[t].socket, s.senders[t];
    var socket := s.sockets[i];
    var s1 := SetFate(s, t, Completed(i, |socket.done|));
    var s2 := SetSocket(s1, i, socket.(
                        bytesSent := socket.bytesSent + |sender.buf|,
                        done := socket.done + [Sent(sender.num, sender.buf)],
                        partial := []));
    SetSender(s2, t, sender.(pc := Finishing, ok := true))
  }

  function Failing(s: State, t: nat): State
    requires HasSocket(s, t) && HasSession(s, t)
  {
    var i := s.senders[t].socket;
    var s1 := SetFate(s, t, Lost);
    var s2 := SetSocket(s1, i, s.sockets[i].(usable := false));
    SetSender(s2, t, s.senders[t].(pc := Finishing, ok := false))
  }

  function Releasing(s: State, t: nat, woken: nat): State
    requires HasSocket(s, t) && woken < |s.senders|
  {
    var i, sender := s.senders[t].socket, s.senders[t];
    var socket := s.sockets[i];
    var sending := if socket.bytesSending >= |sender.buf| then socket.bytesSending - |sender.buf| else 0;
    var s1 := SetSocket(s, i, socket.(inUse := false, bytesSending := sending));
    var s2 := if woken == t then s1 else Goto(s1, woken, Woken);
    Goto(s2, t, if sender.ok then Batching else Stopped)
  }

  /** Finds or creates the session, unless a different one exists; then joins it. */
  function Joined(s: State, i: nat): State
    requires i < |s.sockets| && (s.sockets[i].id in s.sessions ==> s.sessions[s.sockets[i].id] < |s.objects|)
  {
    var socket := s.sockets[i];
    if socket.id in s.sessions then
      var r := s.sessions[socket.id];
      var s1 := SetObject(s, r, s.objects[r].(streams := s.objects[r].streams + [i]));
      SetSocket(s1, i, socket.(pc := Serving, session := r))
    else if s.sessions != map[] then
      SetSocket(s, i, socket.(pc := Ended, usable := false))
    else
      var r := |s.objects|;
      var s1 := s.(sessions := s.sessions[socket.id := r],
                   objects := s.objects + [Session(socket.id, INIT_SEQ_NUM + 1, [i], [], [])]);
      SetSocket(s1, i, socket.(pc := Serving, session := r))
  }

  function Left(s: State, i: nat): State
    requires i < |s.sockets| && s.sockets[i].id in s.sessions && s.sessions[s.sockets[i].id] < |s.objects|
  {
    var id := s.sockets[i].id;
    var r := s.sessions[id];
    var streams := Without(s.objects[r].streams, i);
    var s1 := SetObject(s, r, s.objects[r].(streams := streams));
    var s2 := if streams == [] then s1.(sessions := s1.sessions - {id}) else s1;
    SocketGoto(s2, i, Ended)
  }

  /** The thread ends; a frame it could not hand on is not counted as sent. */
  function Stopping(s: State, t: nat): State
    requires t < |s.senders|
  {
    var sender := s.senders[t];
    SetSender(s, t, if sender.pc == Ready && |sender.buf| >= HEADER_SIZE
                    then sender.(pc := Stopped, pending := DatagramsOf(sender.buf) + sender.pending)
                    else sender.(pc := Stopped))
  }

  function Settling(s: State, t: nat, pc: SenderPc, k: nat): State
    requires HasSession(s, t) && k < |s.objects[s.senders[t].session].streams|
  {
    SetSender(s, t, s.senders[t].(pc := pc, socket := s.objects[s.senders[t].session].streams[k]))
  }

  function GreetingMore(s: State, i: nat, n: nat): State
    requires i < |s.sockets| && |s.sockets[i].wire| + n <= |s.sockets[i].hello|
  {
    var socket := s.sockets[i];
    SetSocket(s, i, socket.(wire := socket.wire + socket.hello[|socket.wire|..|socket.wire| + n]))
  }

  /** Steps of a socket thread. */
  predicate OfSocket(step: Step) {
    step.Greet? || step.Greeted? || step.GreetFails? || step.AskToRegister? || step.LockToRegister? || step.Register?
    || step.StopServing? || step.CloseSocket? || step.AskToLeave? || step.LockToLeave? || step.Unregister?
  }

  function Apply(s: State, step: Step): (s': State)
    requires Enabled(s, step)
  {
    match step
    case Fetch(t, d) =>
      SetSender(s, t, s.senders[t].(read := s.senders[t].read + [d], pending := s.senders[t].pending + [d]))
    case CloseBatch(t, buf, keep) => SetSender(s, t, s.senders[t].(pc := Ready, buf := buf, pending := keep))
    case StopQueue(t) => Stopping(s, t)
    case Enter(t) => Goto(s, t, Entered)
    case Refuse(t) => Goto(s, t, Ready)
    case Number(t, id) => Numbering(s, t, s.sessions[id])
    case Lock(t) => Goto(s, t, Locked)
    case Pick(t, k) => Settling(s, t, Picked, k)
    case Wait(t) => Settling(s, t, Waiting, 0)
    case WakeSpuriously(t) => Goto(s, t, Woken)
    case Relock(t) => Goto(s, t, Rechecking)
    case Recheck(t) => Goto(s, t, if InUse(s, s.senders[t].socket) then Waiting else Picked)
    case Take(t) => Taking(s, t)
    case LeaveShared(t) => Goto(s, t, Sending)
    case Write(t, n) => Writing(s, t, n)
    case FailWrite(t) => Failing(s, t)
    case Complete(t) => Completing(s, t)
    case Reenter(t) => Goto(s, t, Reentered)
    case RelockToRelease(t) => Goto(s, t, Relocked)
    case Release(t, woken) => Releasing(s, t, woken)
    case _ => ApplySocket(s, step)
  }

  function ApplySocket(s: State, step: Step): (s': State)
    requires Enabled(s, step) && OfSocket(step)
  {
    match step
    case Greet(i, n) => GreetingMore(s, i, n)
    case Greeted(i) => SocketGoto(s, i, Joining)
    case GreetFails(i) => SetSocket(s, i, s.sockets[i].(pc := Ended, usable := false))
    case AskToRegister(i) => SocketGoto(s, i, AskedToJoin)
    case LockToRegister(i) => SocketGoto(s, i, Registering)
    case Register(i) => Joined(s, i)
    case StopServing(i) => SocketGoto(s, i, Closing)
    case CloseSocket(i) => SetSocket(s, i, s.sockets[i].(pc := Leaving, usable := false))
    case AskToLeave(i) => SocketGoto(s, i, AskedToLeave)
    case LockToLeave(i) => SocketGoto(s, i, Unregistering)
    case Unregister(i) => Left(s, i)
  }

  // ----- runs -----

  ghost predicate FreshSender(sender: Sender) {
    sender.pc == Batching && sender.read == [] && sender.pending == [] && sender.handed == []
  }

  ghost predicate FreshSocket(socket: Socket) {
    && socket.pc == Greeting && socket.wire == [] && socket.usable && !socket.inUse
    && socket.bytesSending == 0 && socket.bytesSent == 0 && socket.done == [] && socket.partial == []
    && IsFrame(socket.hello) && SeqNumOf(socket.hello) == INIT_SEQ_NUM
  }

  /** Any number of queues and of sockets, agreeing on any session ids. */
  ghost predicate Initial(s: State) {
    && (forall t :: 0 <= t < |s.senders| ==> FreshSender(s.senders[t]))
    && (forall i :: 0 <= i < |s.sockets| ==> FreshSocket(s.sockets[i]))
    && s.sessions == map[] && s.objects == []
  }

  /** The k-th step leads from the k-th state to the next. */
  ghost predicate Follows(states: seq<State>, steps: seq<Step>, k: nat) {
    && k < |steps| && |states| == |steps| + 1
    && Enabled(states[k], steps[k])
    && states[k + 1] == Apply(states[k], steps[k])
  }

  /** `states` is a run that takes `steps`. */
  ghost predicate Run(states: seq<State>, steps: seq<Step>) {
    && |states| == |steps| + 1 && Initial(states[0])
    && forall k :: 0 <= k < |steps| ==> Follows(states, steps, k)
  }
}
