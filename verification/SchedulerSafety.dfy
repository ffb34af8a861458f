/** What holds in every state of every run, whatever the interleaving. */
module SchedulerSafety {
  import opened Lists
  import opened FrameFormat
  import opened Scheduler
  import opened SchedulerInvariant
  import opened SchedulerOwnership
  import opened SchedulerChoice
  import opened SchedulerNumbers
  import opened SchedulerWires
  import opened SchedulerQueues

  lemma InvariantAtStart(s: State)
    requires Initial(s)
    ensures Invariant(s)
  {
    assert forall i, t :: SharedOk(s, i, t);
    assert forall i, j :: ExclusiveOk(s, i, j);
    assert forall i :: ListedOk(s, i);
    assert forall i :: UseOk(s, i);
    assert forall i :: WireOk(s, i) by {
      forall i: nat ensures WireOk(s, i) {
        if i < |s.sockets| { assert FreshSocket(s.sockets[i]); }
      }
    }
    assert forall t :: QueueOk(s, t);
  }

  lemma InvariantKept(s: State, step: Step)
    requires Invariant(s) && Enabled(s, step)
    ensures Invariant(Apply(s, step))
  {
    LocksKept(s, step);
    RegistryKept(s, step);
    ChoicesKept(s, step);
    PicksKept(s, step);
    OwnershipKept(s, step);
    NoLostWakeupKept(s, step);
    NumbersKept(s, step);
    WiresKept(s, step);
    QueuesKept(s, step);
  }

  /** The invariant holds at every point of every run. */
  lemma {:induction false} EveryRunKeepsInvariant(states: seq<State>, steps: seq<Step>, k: nat)
    requires Run(states, steps) && k < |states|
    ensures Invariant(states[k])
  {
    if k == 0 {
      InvariantAtStart(states[0]);
    } else {
      EveryRunKeepsInvariant(states, steps, k - 1);
      assert Follows(states, steps, k - 1);
      InvariantKept(states[k - 1], steps[k - 1]);
    }
  }

  /** Some run leads here. */
  ghost predicate Reachable(s: State) {
    exists states, steps :: Run(states, steps) && states[|steps|] == s
  }

  lemma QueueInRun(s: State, t: nat)
    requires Reachable(s)
    ensures QueueOk(s, t)
  {
    ReachableInvariant(s);
  }

  lemma ReachableInvariant(s: State)
    requires Reachable(s)
    ensures Invariant(s)
  {
    var states, steps :| Run(states, steps) && states[|steps|] == s;
    EveryRunKeepsInvariant(states, steps, |steps|);
  }

  // ----- sessions -----

  /** At most one session exists, so the assertion that there is exactly one, made once the map was
      seen not to be empty, holds; and a session in the map has a stream. */
  lemma SessionLifecycle(s: State)
    requires Reachable(s)
    ensures |s.sessions| <= 1 && (s.sessions != map[] ==> |s.sessions| == 1)
    ensures forall id :: id in s.sessions ==>
              s.sessions[id] < |s.objects| && s.objects[s.sessions[id]].streams != []
  {
    ReachableInvariant(s);
    if s.sessions != map[] {
      var id :| id in s.sessions;
      assert s.sessions.Keys == {id};
      assert |s.sessions| == |s.sessions.Keys|;
    }
    forall id | id in s.sessions ensures s.sessions[id] < |s.objects| && s.objects[s.sessions[id]].streams != [] {
      assert InMapOk(s, id);
    }
  }

  /** A session object is out of the map exactly when its list of streams is empty. */
  lemma ErasedExactlyWhenEmpty(s: State, r: nat)
    requires Reachable(s) && r < |s.objects|
    ensures s.objects[r].streams == [] <==> forall id :: id in s.sessions ==> s.sessions[id] != r
  {
    ReachableInvariant(s);
    assert ObjectOk(s, r);
    forall id | id in s.sessions && s.sessions[id] == r ensures s.objects[r].streams != [] {
      assert InMapOk(s, id);
    }
  }

  /** Choosing a stream never meets an empty list, and unregistering always finds the session. */
  lemma ListsServe(s: State, t: nat, i: nat)
    requires Reachable(s)
    ensures AtPc(s, t, Locked) ==> HasSession(s, t) && s.objects[s.senders[t].session].streams != []
    ensures SocketAt(s, i, Unregistering) ==>
              Enabled(s, Unregister(i)) && i in s.objects[s.sessions[s.sockets[i].id]].streams
  {
    ReachableInvariant(s);
    assert ChoiceOk(s, t);
    assert ListedOk(s, i);
    if SocketAt(s, i, Unregistering) {
      assert ObjectOk(s, s.sockets[i].session);
    }
  }

  /** Once every socket thread has ended, the map is empty, as the destructor asserts. */
  lemma AllEndedMapEmpty(s: State)
    requires Reachable(s)
    requires forall i :: 0 <= i < |s.sockets| ==> s.sockets[i].pc == Ended
    ensures s.sessions == map[]
  {
    ReachableInvariant(s);
    if id :| id in s.sessions {
      var i := SomeoneListed(s, id);
      assert false;
    }
  }

  lemma SomeoneListed(s: State, id: SessionId) returns (i: nat)
    requires Registry(s) && id in s.sessions
    ensures i < |s.sockets| && Listed(s.sockets[i].pc)
  {
    assert InMapOk(s, id);
    i := s.objects[s.sessions[id]].streams[0];
    assert StreamOk(s, s.sessions[id], i);
  }

  /** A socket of a second session is refused: it gets no stream, and everything else stays as it was. */
  lemma SecondSessionRefused(s: State, i: nat)
    requires Reachable(s) && SocketAt(s, i, Registering)
    ensures Enabled(s, Register(i))
    ensures var s' := Joined(s, i); var id := s.sockets[i].id;
            && (s'.sockets[i].pc == Serving <==> s.sessions == map[] || id in s.sessions)
            && (s'.sockets[i].pc == Serving ==>
                  && id in s'.sessions && s'.sockets[i].session == s'.sessions[id] < |s'.objects|
                  && s'.objects[s'.sessions[id]].streams ==
                     (if id in s.sessions then s.objects[s.sessions[id]].streams else []) + [i])
            && (s'.sockets[i].pc != Serving ==>
                  s' == s.(sockets := s.sockets[i := s.sockets[i].(pc := Ended, usable := false)]))
            && s'.senders == s.senders && forall j :: 0 <= j < |s.sockets| && j != i ==> s'.sockets[j] == s.sockets[j]
  {
    ReachableInvariant(s);
    assert InMapOk(s, s.sockets[i].id);
  }

  // ----- ownership -----

  predicate OwnsStream(s: State, t: nat, i: nat) {
    t < |s.senders| && Owns(s.senders[t].pc) && s.senders[t].socket == i
  }

  /** A stream is in use iff one thread is between marking and releasing it, and then exactly one. */
  lemma StreamOwnership(s: State, i: nat)
    requires Reachable(s) && i < |s.sockets|
    ensures s.sockets[i].inUse <==> exists t :: OwnsStream(s, t, i)
    ensures forall t, u :: OwnsStream(s, t, i) && OwnsStream(s, u, i) ==> t == u
    ensures forall t: nat :: OwnsStream(s, t, i) ==> s.sockets[i].bytesSending == |s.senders[t].buf|
    ensures !s.sockets[i].inUse ==> s.sockets[i].bytesSending == 0
    ensures s.sockets[i].bytesSent == |Flatten(FramesOf(s.sockets[i].done))|
  {
    ReachableInvariant(s);
    assert UseOk(s, i);
    TotalSentIsLength(s.sockets[i].done);
    if s.sockets[i].inUse {
      assert OwnsStream(s, s.sockets[i].owner, i);
    }
    forall t: nat | OwnsStream(s, t, i)
      ensures s.sockets[i].inUse && s.sockets[i].owner == t && s.sockets[i].bytesSending == |s.senders[t].buf|
    {
      assert OwnerOk(s, t);
    }
  }

  lemma {:induction false} TotalSentIsLength(done: seq<Sent>)
    ensures TotalSent(done) == |Flatten(FramesOf(done))|
  {
    if done != [] {
      var front, last := done[..|done| - 1], done[|done| - 1];
      TotalSentIsLength(front);
      assert done == front + [last];
      FramesOfSnoc(front, last);
    }
  }

  // ----- bytes on a socket -----

  ghost predicate Booked(s: State, r: nat) {
    r < |s.objects| && |s.objects[r].log| == |s.objects[r].fates| == s.objects[r].nextSeqNum - 1
  }

  /** The j-th frame completed on stream i carries a number of its own. */
  ghost predicate WholeFrame(s: State, i: nat, j: nat)
    requires i < |s.sockets| && Booked(s, s.sockets[i].session) && j < |s.sockets[i].done|
  {
    var r, d := s.objects[s.sockets[i].session], s.sockets[i].done[j];
    1 <= d.num < r.nextSeqNum && DataFrame(d.frame) && d.frame == r.log[d.num - 1].frame
    && r.fates[d.num - 1] == Completed(i, j)
  }

  /** Thread t is sending frame n on stream i. */
  predicate SendsOn(s: State, t: nat, i: nat, n: nat) {
    AtPc(s, t, Sending) && s.senders[t].socket == i && s.senders[t].num == n
  }

  ghost predicate PartOfOne(s: State, i: nat)
    requires i < |s.sockets| && Booked(s, s.sockets[i].session)
  {
    var y, r := s.sockets[i], s.objects[s.sockets[i].session];
    && 1 <= y.current < r.nextSeqNum && y.partial <= r.log[y.current - 1].frame
    && ((exists t: nat :: SendsOn(s, t, i, y.current) && s.senders[t].buf == r.log[y.current - 1].frame)
        || (r.fates[y.current - 1] == Lost && !y.usable && |y.partial| < |r.log[y.current - 1].frame|))
  }

  /** What a registered socket has carried is its init frame (number 0), then whole frames in the order
      their sends completed, each with its own number, then part of at most one frame: of the thread
      that is sending on it, or of a failed send, after which no write can happen. */
  lemma FramesNeverInterleave(s: State, i: nat)
    requires Reachable(s) && i < |s.sockets| && Listed(s.sockets[i].pc)
    ensures Booked(s, s.sockets[i].session)
    ensures var y := s.sockets[i];
            && y.wire == y.hello + Flatten(FramesOf(y.done)) + y.partial
            && IsFrame(y.hello) && SeqNumOf(y.hello) == INIT_SEQ_NUM
            && (forall j :: 0 <= j < |y.done| ==> WholeFrame(s, i, j))
            && (y.partial != [] ==> PartOfOne(s, i))
  {
    ReachableInvariant(s);
    var y := s.sockets[i];
    assert WireOk(s, i) && ListedOk(s, i) && CounterOk(s, y.session);
    forall j | 0 <= j < |y.done| ensures WholeFrame(s, i, j) {
      assert DoneOk(s, i, j) && NumberOk(s, y.session, y.done[j].num - 1);
    }
    if y.partial != [] {
      PartialBelongs(s, i);
    }
  }

  lemma PartialBelongs(s: State, i: nat)
    requires Wires(s) && Ownership(s) && Numbers(s)
    requires i < |s.sockets| && Booked(s, s.sockets[i].session) && s.sockets[i].partial != []
    ensures PartOfOne(s, i)
  {
    var y := s.sockets[i];
    assert PartialOk(s, i) && UseOk(s, i) && OwnerOk(s, y.owner) && FlightOk(s, y.owner);
    if s.objects[y.session].fates[y.current - 1] != Lost || y.usable {
      assert SendsOn(s, y.owner, i, y.current);
    }
  }

  // ----- numbers -----

  predicate FliesAs(s: State, t: nat, r: nat, n: nat) {
    t < |s.senders| && HasFlight(s.senders[t].pc) && s.senders[t].session == r && s.senders[t].num == n
  }

  /** In every state the numbers given out by a session are exactly 1 .. nextSeqNum - 1; each stands for
      one thread's frame, and is in flight at that thread, or completed at one place, or lost. */
  lemma NumbersAccountedFor(s: State, r: nat, n: nat)
    requires Reachable(s) && r < |s.objects| && 1 <= n < s.objects[r].nextSeqNum
    ensures Booked(s, r)
    ensures var x := s.objects[r];
            && x.log[n - 1].sender < |s.senders| && NumberedFrame(x.log[n - 1].frame, n)
            && (x.fates[n - 1] == InFlight <==> FliesAs(s, x.log[n - 1].sender, r, n))
            && (forall t :: FliesAs(s, t, r, n) ==> t == x.log[n - 1].sender)
  {
    ReachableInvariant(s);
    assert CounterOk(s, r) && NumberOk(s, r, n - 1);
    forall t | FliesAs(s, t, r, n)
      ensures s.objects[r].fates[n - 1] == InFlight && t == s.objects[r].log[n - 1].sender
    {
      assert FlightOk(s, t);
    }
  }

  lemma CompletedOnce(s: State, r: nat, n: nat)
    requires Reachable(s) && r < |s.objects| && 1 <= n < s.objects[r].nextSeqNum
    ensures Booked(s, r)
    ensures s.objects[r].fates[n - 1].Completed? <==> exists i, j :: DoneAt(s, i, j, r, n)
    ensures forall i, j, i', j' :: DoneAt(s, i, j, r, n) && DoneAt(s, i', j', r, n) ==> i == i' && j == j'
  {
    ReachableInvariant(s);
    assert CounterOk(s, r) && NumberOk(s, r, n - 1);
    forall i, j | DoneAt(s, i, j, r, n)
      ensures s.objects[r].fates[n - 1] == Completed(i, j)
    {
      assert DoneOk(s, i, j);
    }
    if s.objects[r].fates[n - 1].Completed? {
      var f := s.objects[r].fates[n - 1];
      assert DoneAt(s, f.socket, f.index, r, n);
    }
  }

  predicate DoneAt(s: State, i: nat, j: nat, r: nat, n: nat) {
    i < |s.sockets| && j < |s.sockets[i].done| && s.sockets[i].session == r && s.sockets[i].done[j].num == n
  }

  /** Nothing is taken back: a session's log only grows, and a fate once settled stays. */
  ghost predicate Extends(s: State, s': State) {
    && |s.objects| <= |s'.objects|
    && forall r :: LogExtends(s, s', r)
  }

  ghost predicate LogExtends(s: State, s': State, r: nat) {
    r < |s.objects| && r < |s'.objects| ==>
      && |s.objects[r].log| <= |s'.objects[r].log| && s'.objects[r].log[..|s.objects[r].log|] == s.objects[r].log
      && |s.objects[r].fates| <= |s'.objects[r].fates|
      && forall n :: 0 <= n < |s.objects[r].fates| && s.objects[r].fates[n] != InFlight ==>
           s'.objects[r].fates[n] == s.objects[r].fates[n]
  }

  lemma StepExtends(s: State, step: Step)
    requires Invariant(s) && Enabled(s, step)
    ensures Extends(s, Apply(s, step))
  {
    hide Apply, Enabled, Invariant, Extends;
    if Local(step) {
      var t, x := LocalSteps(s, step);
      ExtendsItself(s);
      ExtendsByObjects(s, s, Apply(s, step));
    } else if Unregistered(step) {
      var i, y := SocketSteps(s, step);
      ExtendsItself(s);
      ExtendsByObjects(s, s, Apply(s, step));
    } else if InSend(step) {
      SendExtends(s, step);
    } else {
      RestExtends(s, step);
    }
  }

  lemma SendExtends(s: State, step: Step)
    requires Invariant(s) && Enabled(s, step) && InSend(step)
    ensures Extends(s, Apply(s, step))
  {
    var s', t := Apply(s, step), step.t;
    assert FlightOk(s, t);
    var s1 := if step.Write? then s
              else SetFate(s, t, if step.FailWrite? then Lost
                                 else Completed(s.senders[t].socket, |s.sockets[s.senders[t].socket].done|));
    assert s'.objects == s1.objects;
    if step.Write? {
      ExtendsItself(s);
    } else {
      FateSettled(s, t, if step.FailWrite? then Lost
                        else Completed(s.senders[t].socket, |s.sockets[s.senders[t].socket].done|));
    }
    ExtendsByObjects(s, s1, s');
  }

  lemma ExtendsItself(s: State)
    ensures Extends(s, s)
  {
    forall r: nat ensures LogExtends(s, s, r) {
      if r < |s.objects| {
        assert s.objects[r].log[..|s.objects[r].log|] == s.objects[r].log;
      }
    }
  }

  lemma ExtendsByObjects(s: State, s1: State, s': State)
    requires Extends(s, s1) && s'.objects == s1.objects
    ensures Extends(s, s')
  {
    forall r ensures LogExtends(s, s', r) { assert LogExtends(s, s1, r); }
  }

  lemma FateSettled(s: State, t: nat, fate: Fate)
    requires Numbers(s) && HasSession(s, t) && HasFlight(s.senders[t].pc)
    ensures Extends(s, SetFate(s, t, fate))
  {
    assert FlightOk(s, t);
    forall r: nat ensures LogExtends(s, SetFate(s, t, fate), r) {
      if r < |s.objects| {
        assert s.objects[r].log[..|s.objects[r].log|] == s.objects[r].log;
      }
    }
  }

  lemma RestExtends(s: State, step: Step)
    requires Enabled(s, step) && !Local(step) && !Unregistered(step) && !InSend(step)
    ensures Extends(s, Apply(s, step))
  {
  }

  /** Whatever got a number by step j is still what that number stands for at step k, and a fate that was
      settled is still the same. */
  lemma {:induction false} HistoryOnlyGrows(states: seq<State>, steps: seq<Step>, j: nat, k: nat)
    requires Run(states, steps) && j <= k < |states|
    ensures Extends(states[j], states[k])
    decreases k - j
  {
    if j < k {
      HistoryOnlyGrows(states, steps, j, k - 1);
      EveryRunKeepsInvariant(states, steps, k - 1);
      assert Follows(states, steps, k - 1);
      StepExtends(states[k - 1], steps[k - 1]);
      ExtendsTwice(states[j], states[k - 1], states[k]);
    } else {
      ExtendsItself(states[j]);
    }
  }

  lemma ExtendsTwice(a: State, b: State, c: State)
    requires Extends(a, b) && Extends(b, c)
    ensures Extends(a, c)
  {
    forall r ensures LogExtends(a, c, r) {
      assert LogExtends(a, b, r) && LogExtends(b, c, r);
      GrowsTwice(a, b, c, r);
    }
  }

  lemma GrowsTwice(a: State, b: State, c: State, r: nat)
    requires LogExtends(a, b, r) && LogExtends(b, c, r) && |a.objects| <= |b.objects| <= |c.objects|
    ensures LogExtends(a, c, r)
  {
    if r < |a.objects| {
      var x, y, z := a.objects[r].log, b.objects[r].log, c.objects[r].log;
      assert z[..|x|] == z[..|y|][..|x|] == x;
    }
  }

  // ----- order of numbers -----

  /** A number given out later in a session is larger, whichever threads get the two; so the numbers one
      thread gets from a session are strictly increasing. */
  lemma LaterNumbersAreLarger(states: seq<State>, steps: seq<Step>, a: nat, b: nat)
    requires Run(states, steps) && a < b < |steps| && steps[a].Number? && steps[b].Number?
    requires Gets(states, steps, a).0 == Gets(states, steps, b).0
    ensures Gets(states, steps, a).1 < Gets(states, steps, b).1
  {
    var r := Gets(states, steps, a).0;
    assert Follows(states, steps, a) && Follows(states, steps, b);
    HistoryOnlyGrows(states, steps, a + 1, b);
    assert LogExtends(states[a + 1], states[b], r);
    CounterInRun(states, steps, a + 1, r);
    CounterInRun(states, steps, b, r);
  }

  /** The session and the number that a numbering step yields. */
  function Gets(states: seq<State>, steps: seq<Step>, a: nat): (nat, nat)
    requires Run(states, steps) && a < |steps| && steps[a].Number?
  {
    assert Follows(states, steps, a);
    var r := states[a].sessions[steps[a].id];
    (r, states[a].objects[r].nextSeqNum)
  }

  lemma CounterInRun(states: seq<State>, steps: seq<Step>, k: nat, r: nat)
    requires Run(states, steps) && k < |states| && r < |states[k].objects|
    ensures states[k].objects[r].nextSeqNum == |states[k].objects[r].log| + 1
  {
    EveryRunKeepsInvariant(states, steps, k);
    assert CounterOk(states[k], r);
  }

  // ----- refused frames -----

  predicate ActsFor(step: Step, t: nat) {
    !OfSocket(step) && step.t == t
  }

  /** Nobody else touches a thread that looks for a session. */
  lemma OthersLeaveEntered(s: State, step: Step, t: nat)
    requires Enabled(s, step) && AtPc(s, t, Entered) && !ActsFor(step, t)
    ensures t < |Apply(s, step).senders| && Apply(s, step).senders[t] == s.senders[t]
  {
    hide Apply, Enabled;
    if Local(step) {
      var u, x := LocalSteps(s, step);
    } else if Unregistered(step) {
      var i, y := SocketSteps(s, step);
    } else if InSend(step) {
      var u := SendSteps(s, step);
    } else {
      RestLeavesEntered(s, step, t);
    }
  }

  lemma RestLeavesEntered(s: State, step: Step, t: nat)
    requires Enabled(s, step) && AtPc(s, t, Entered) && !ActsFor(step, t)
    requires !Local(step) && !Unregistered(step) && !InSend(step)
    ensures t < |Apply(s, step).senders| && Apply(s, step).senders[t] == s.senders[t]
  {
  }

  lemma Enters(s: State, t: nat)
    requires Enabled(s, Enter(t))
    ensures AtPc(s, t, Ready) && Apply(s, Enter(t)).senders == s.senders[t := s.senders[t].(pc := Entered)]
  {
  }

  lemma {:induction false} UntilRefused(states: seq<State>, steps: seq<Step>, t: nat, j: nat, k: nat)
    requires Run(states, steps) && j < k <= |steps| && steps[j] == Enter(t)
    requires forall m :: j < m < k ==> !ActsFor(steps[m], t)
    ensures t < |states[j].senders| && t < |states[k].senders|
    ensures states[j].senders[t].pc == Ready && states[k].senders[t] == states[j].senders[t].(pc := Entered)
  {
    hide Apply, Enabled;
    assert Follows(states, steps, k - 1);
    if k > j + 1 {
      UntilRefused(states, steps, t, j, k - 1);
      OthersLeaveEntered(states[k - 1], steps[k - 1], t);
    } else {
      Enters(states[j], t);
    }
  }

  /** What a session has numbered for a queue. */
  function SentIn(s: State, r: nat, t: nat): seq<seq<Datagram>> {
    if r < |s.objects| then SentBy(s.objects[r].log, t) else []
  }

  /** A frame refused because no session is there uses up no number and comes back unchanged, whatever the
      other threads do between the look at the sessions and the refusal. */
  lemma RefusalChangesNothing(states: seq<State>, steps: seq<Step>, t: nat, j: nat, k: nat, r: nat)
    requires Run(states, steps) && j < k < |steps| && steps[j] == Enter(t) && steps[k] == Refuse(t)
    requires forall m :: j < m < k ==> !ActsFor(steps[m], t)
    ensures t < |states[j].senders| && t < |states[k + 1].senders|
    ensures states[k + 1].senders[t] == states[j].senders[t]
    ensures SentIn(states[k + 1], r, t) == SentIn(states[j], r, t)
  {
    UntilRefused(states, steps, t, j, k);
    assert Follows(states, steps, k);
    LoggedAsHanded(states, steps, j, t, r);
    LoggedAsHanded(states, steps, k + 1, t, r);
  }

  lemma LoggedAsHanded(states: seq<State>, steps: seq<Step>, k: nat, t: nat, r: nat)
    requires Run(states, steps) && k < |states| && t < |states[k].senders|
    ensures SentIn(states[k], r, t) == HandedTo(states[k].senders[t].handed, r)
  {
    EveryRunKeepsInvariant(states, steps, k);
    assert LogOk(states[k], r, t) && QueueOk(states[k], t);
    if r >= |states[k].objects| {
      NoneHandedTo(states[k].senders[t].handed, r);
    }
  }

  // ----- after a failed send -----

  predicate Dead(s: State, i: nat) {
    i < |s.sockets| && !s.sockets[i].usable && s.sockets[i].pc != Greeting
  }

  lemma DeadStaysSilent(s: State, step: Step, i: nat)
    requires Invariant(s) && Enabled(s, step) && Dead(s, i)
    ensures Dead(Apply(s, step), i) && Apply(s, step).sockets[i].wire == s.sockets[i].wire
  {
    hide Apply, Enabled, Invariant;
    if Local(step) {
      var u, x := LocalSteps(s, step);
    } else if Unregistered(step) {
      var i', y := SocketSteps(s, step);
    } else if InSend(step) {
      SendLeavesDead(s, step, i);
    } else {
      RestLeavesDead(s, step, i);
    }
  }

  lemma SendLeavesDead(s: State, step: Step, i: nat)
    requires Enabled(s, step) && Dead(s, i) && InSend(step)
    ensures Dead(Apply(s, step), i) && Apply(s, step).sockets[i].wire == s.sockets[i].wire
  {
  }

  lemma RestLeavesDead(s: State, step: Step, i: nat)
    requires Enabled(s, step) && Dead(s, i) && !Local(step) && !Unregistered(step) && !InSend(step)
    ensures Dead(Apply(s, step), i) && Apply(s, step).sockets[i].wire == s.sockets[i].wire
  {
  }

  /** Once a send on a stream has failed, or its descriptor is closed, nothing is written to it any more. That
      the failure of a write lasts is what the model takes for granted (the guard of `Write`); what is
      shown is that no step of any thread, releasing and unregistering included, gets past it. */
  lemma {:induction false} NothingAfterFailure(states: seq<State>, steps: seq<Step>, i: nat, j: nat, k: nat)
    requires Run(states, steps) && j <= k < |states| && Dead(states[j], i)
    ensures Dead(states[k], i) && states[k].sockets[i].wire == states[j].sockets[i].wire
    decreases k - j
  {
    if j < k {
      NothingAfterFailure(states, steps, i, j, k - 1);
      EveryRunKeepsInvariant(states, steps, k - 1);
      assert Follows(states, steps, k - 1);
      DeadStaysSilent(states[k - 1], steps[k - 1], i);
    }
  }
}
