/** Every step keeps the registry of streams and the choices made from it, and loses no wakeup. */
module SchedulerChoice {
  import opened Scheduler
  import opened SchedulerInvariant
  import opened SchedulerOwnership

  // ----- registry -----

  /** The registry looks only at the map, at who is in which list, and at the sockets' places. */
  lemma RegistryKeptIfSame(s: State, s': State)
    requires Registry(s) && SameLists(s, s')
    ensures Registry(s')
  {
    forall id ensures InMapOk(s', id) { assert InMapOk(s, id); }
    forall r ensures ObjectOk(s', r) { assert ObjectOk(s, r); }
    forall r, i ensures StreamOk(s', r, i) { assert StreamOk(s, r, i); }
    forall i ensures ListedOk(s', i) { assert ListedOk(s, i); }
  }

  lemma RegistryKept(s: State, step: Step)
    requires Registry(s) && Enabled(s, step)
    ensures Registry(Apply(s, step))
  {
    if step.Register? {
      RegistryKeptByRegister(s, step.i);
    } else if step.Unregister? {
      RegistryKeptByUnregister(s, step.i);
    } else {
      ListsKept(s, step);
      RegistryKeptIfSame(s, Apply(s, step));
    }
  }

  ghost predicate SameLists(s: State, s': State) {
    && s'.sessions == s.sessions && |s'.objects| == |s.objects| && |s'.sockets| == |s.sockets|
    && (forall r :: 0 <= r < |s.objects| ==>
          s'.objects[r].streams == s.objects[r].streams && s'.objects[r].id == s.objects[r].id)
    && (forall i :: 0 <= i < |s.sockets| ==>
          s'.sockets[i].session == s.sockets[i].session && s'.sockets[i].id == s.sockets[i].id
          && (Listed(s'.sockets[i].pc) <==> Listed(s.sockets[i].pc)))
  }

  lemma ListsKept(s: State, step: Step)
    requires Enabled(s, step) && !step.Register? && !step.Unregister?
    ensures SameLists(s, Apply(s, step))
  {
    hide Apply, Enabled;
    if Local(step) {
      var t, x := LocalSteps(s, step);
    } else if Unregistered(step) {
      var i, y := SocketSteps(s, step);
    } else if InSend(step) {
      var t := SendSteps(s, step);
    } else {
      ListsKeptByRest(s, step);
    }
  }

  lemma ListsKeptByRest(s: State, step: Step)
    requires Enabled(s, step) && (step.Number? || step.Take? || step.Release?)
    ensures SameLists(s, Apply(s, step))
  {
  }

  lemma JoinExisting(s: State, i: nat)
    requires Registry(s) && Enabled(s, Register(i)) && s.sockets[i].id in s.sessions
    ensures Registry(Joined(s, i))
  {
    var s', here := Joined(s, i), s.sessions[s.sockets[i].id];
    assert InMapOk(s, s.sockets[i].id);
    assert i !in s.objects[here].streams by { assert StreamOk(s, here, i); }
    forall id ensures InMapOk(s', id) { assert InMapOk(s, id); }
    forall r ensures ObjectOk(s', r) { assert ObjectOk(s, r); }
    forall r, j ensures StreamOk(s', r, j) { assert StreamOk(s, r, j); }
    forall j ensures ListedOk(s', j) { assert ListedOk(s, j); }
  }

  lemma JoinNew(s: State, i: nat)
    requires Registry(s) && Enabled(s, Register(i)) && s.sessions == map[]
    ensures Registry(Joined(s, i))
  {
    var s' := Joined(s, i);
    forall id ensures InMapOk(s', id) { assert InMapOk(s, id); }
    forall r ensures ObjectOk(s', r) { assert ObjectOk(s, r); }
    forall r, j ensures StreamOk(s', r, j) { assert StreamOk(s, r, j); }
    forall j ensures ListedOk(s', j) { assert ListedOk(s, j); }
  }

  lemma RegistryKeptByRegister(s: State, i: nat)
    requires Registry(s) && Enabled(s, Register(i))
    ensures Registry(Joined(s, i))
  {
    if s.sockets[i].id in s.sessions {
      JoinExisting(s, i);
    } else if s.sessions == map[] {
      JoinNew(s, i);
    } else {
      RegistryKeptIfSame(s, Joined(s, i));
    }
  }

  lemma {:induction false} WithoutOne(streams: seq<nat>, i: nat)
    ensures forall j :: j in Without(streams, i) <==> j in streams && j != i
    ensures NoRepeats(streams) ==> NoRepeats(Without(streams, i))
  {
    if streams != [] {
      WithoutOne(streams[1..], i);
      assert streams == [streams[0]] + streams[1..];
      if NoRepeats(streams) {
        assert NoRepeats(streams[1..]) by {
          forall j, k | 0 <= j < k < |streams[1..]| ensures streams[1..][j] != streams[1..][k] {
            assert streams[j + 1] != streams[k + 1];
          }
        }
        assert streams[0] !in streams[1..] by {
          forall k | 0 <= k < |streams[1..]| ensures streams[1..][k] != streams[0] {
            assert streams[0] != streams[k + 1];
          }
        }
      }
    }
  }

  lemma RegistryKeptByUnregister(s: State, i: nat)
    requires Registry(s) && Enabled(s, Unregister(i))
    ensures Registry(Left(s, i))
  {
    var s', id := Left(s, i), s.sockets[i].id;
    var here := s.sessions[id];
    WithoutOne(s.objects[here].streams, i);
    assert InMapOk(s, id) && ListedOk(s, i) && ObjectOk(s, s.sockets[i].session);
    forall a ensures InMapOk(s', a) { assert InMapOk(s, a); }
    forall r ensures ObjectOk(s', r) { assert ObjectOk(s, r); }
    forall r, j ensures StreamOk(s', r, j) { assert StreamOk(s, r, j); }
    forall j ensures ListedOk(s', j) { assert ListedOk(s, j); }
  }

  // ----- choices -----

  lemma ChoicesKept(s: State, step: Step)
    requires Locks(s) && Registry(s) && Choices(s) && Enabled(s, step)
    ensures Choices(Apply(s, step))
  {
    hide Apply, Enabled, Choices, Locks, Registry;
    if Local(step) {
      LocalChoices(s, step);
    } else if Unregistered(step) {
      var i, y := SocketSteps(s, step);
      ChoicesAfterSocket(s, i, y);
    } else if InSend(step) {
      var t := SendSteps(s, step);
      ChoicesAfterSend(s, Apply(s, step), t);
    } else {
      OtherChoices(s, step);
    }
  }

  lemma OtherChoices(s: State, step: Step)
    requires Locks(s) && Registry(s) && Choices(s) && Enabled(s, step)
    requires !Local(step) && !Unregistered(step) && !InSend(step)
    ensures Choices(Apply(s, step))
  {
    forall u ensures ChoiceOk(Apply(s, step), u) {
      match step {
        case Number(t, id) => NumberedChoice(s, t, id, u);
        case Take(t) => TakenChoice(s, t, u);
        case Release(t, woken) => ReleasedChoice(s, t, woken, u);
        case Register(i) => RegisteredChoice(s, i, u);
        case Unregister(i) => UnregisteredChoice(s, i, u);
        case _ =>
      }
    }
  }

  lemma NumberedChoice(s: State, t: nat, id: SessionId, u: nat)
    requires Registry(s) && Choices(s) && Enabled(s, Number(t, id))
    ensures ChoiceOk(Numbering(s, t, s.sessions[id]), u)
  {
    assert ChoiceOk(s, u) && InMapOk(s, id);
  }

  lemma ReleasedChoice(s: State, t: nat, woken: nat, u: nat)
    requires Choices(s) && Enabled(s, Release(t, woken))
    ensures ChoiceOk(Releasing(s, t, woken), u)
  {
    assert ChoiceOk(s, u) && ChoiceOk(s, woken);
  }

  lemma RegisteredChoice(s: State, i: nat, u: nat)
    requires Locks(s) && Choices(s) && Enabled(s, Register(i))
    ensures ChoiceOk(Joined(s, i), u)
  {
    assert ChoiceOk(s, u) && SharedOk(s, i, u);
  }

  lemma UnregisteredChoice(s: State, i: nat, u: nat)
    requires Locks(s) && Choices(s) && Enabled(s, Unregister(i))
    ensures ChoiceOk(Left(s, i), u)
  {
    assert ChoiceOk(s, u) && SharedOk(s, i, u);
  }

  lemma ChoicesAfterSocket(s: State, i: nat, y: Socket)
    requires Choices(s) && i < |s.sockets| && y.inUse == s.sockets[i].inUse
    ensures Choices(SetSocket(s, i, y))
  {
    forall u ensures ChoiceOk(SetSocket(s, i, y), u) { assert ChoiceOk(s, u); }
  }

  lemma ChoicesAfterSend(s: State, s': State, t: nat)
    requires Choices(s) && HasSocket(s, t) && SendChange(s, s', t)
    ensures Choices(s')
  {
    forall u ensures ChoiceOk(s', u) { assert ChoiceOk(s, u); }
  }

  lemma LocalChoices(s: State, step: Step)
    requires Choices(s) && Enabled(s, step) && Local(step)
    ensures Choices(Apply(s, step))
  {
    hide Apply, Enabled;
    var t, x := LocalSteps(s, step);
    forall u ensures ChoiceOk(Apply(s, step), u) {
      assert ChoiceOk(s, u);
      if u == t { LocalChoice(s, step); }
    }
  }

  lemma LocalChoice(s: State, step: Step)
    requires Choices(s) && Enabled(s, step) && Local(step) && step.t < |s.senders|
    ensures ChoiceOk(Apply(s, step), step.t)
  {
    assert ChoiceOk(s, step.t);
  }

  /** The mutex keeps two threads from having picked the same stream. */
  lemma TakenChoice(s: State, t: nat, u: nat)
    requires Locks(s) && Registry(s) && Choices(s) && Enabled(s, Take(t))
    ensures ChoiceOk(Taking(s, t), u)
  {
    assert ChoiceOk(s, u) && ChoiceOk(s, t);
    if u < |s.senders| && u != t && s.senders[u].pc == Picked && s.senders[u].socket == s.senders[t].socket {
      assert StreamOk(s, s.senders[u].session, s.senders[u].socket);
      assert StreamOk(s, s.senders[t].session, s.senders[t].socket);
      assert MutexOk(s, t, u) && MutexOk(s, u, t);
    }
  }

  // ----- which stream -----

  lemma PicksKept(s: State, step: Step)
    requires Locks(s) && Registry(s) && Choices(s) && Picks(s) && Ownership(s) && Enabled(s, step)
    ensures Picks(Apply(s, step))
  {
    hide Apply, Enabled, IsFirstFree;
    forall u ensures PickOk(Apply(s, step), u) {
      assert PickOk(s, u);
      if Local(step) {
        LocalPick(s, step, u);
      } else if step.Register? || step.Unregister? {
        RegistryPick(s, step, u);
      } else if step.Take? {
        TakenPick(s, step.t, u);
      } else if step.Release? {
        ReleasedPick(s, step.t, step.woken, u);
      } else {
        OtherPick(s, step, u);
      }
    }
  }

  /** What is the first free stream depends on the lists and on which streams of the session are in use. */
  lemma SamePick(s: State, s': State, u: nat)
    requires PickOk(s, u) && u < |s.senders| == |s'.senders| && s'.senders[u] == s.senders[u]
    requires var r := s.senders[u].session;
             r < |s.objects| ==>
               && r < |s'.objects| && s'.objects[r].streams == s.objects[r].streams
               && forall i :: i in s.objects[r].streams ==> InUse(s', i) == InUse(s, i)
    ensures PickOk(s', u)
  {
    if AtPc(s, u, Picked) {
      var r := s.senders[u].session;
      var k: nat :| FreeAt(s, r, k) && s.objects[r].streams[k] == s.senders[u].socket;
      assert FreeAt(s', r, k);
    }
  }

  lemma LocalPick(s: State, step: Step, u: nat)
    requires Choices(s) && PickOk(s, u) && Enabled(s, step) && Local(step)
    ensures PickOk(Apply(s, step), u)
  {
    var s' := Apply(s, step);
    if u == step.t {
      OwnPick(s, step);
    } else if AtPc(s', u, Picked) {
      MovesOne(s, step);
      SamePick(s, s', u);
    }
  }

  lemma MovesOne(s: State, step: Step)
    requires Enabled(s, step) && Local(step)
    ensures var s' := Apply(s, step);
            && s'.objects == s.objects && s'.sockets == s.sockets && |s'.senders| == |s.senders|
            && forall u :: 0 <= u < |s.senders| && u != step.t ==> s'.senders[u] == s.senders[u]
  {
    hide Apply, Enabled;
    var t, x := LocalSteps(s, step);
  }

  /** A thread that looks through the list settles on the first free stream; one that was woken up on the
      first of all. */
  lemma OwnPick(s: State, step: Step)
    requires Choices(s) && Enabled(s, step) && Local(step)
    ensures PickOk(Apply(s, step), step.t)
  {
    var s', t := Apply(s, step), step.t;
    if step.Pick? {
      assert FreeAt(s', s.senders[t].session, step.k);
    } else if step.Recheck? {
      assert ChoiceOk(s, t);
      if AtPc(s', t, Picked) {
        assert FreeAt(s', s.senders[t].session, 0);
      }
    }
  }

  lemma RegistryPick(s: State, step: Step, u: nat)
    requires Locks(s) && PickOk(s, u) && Enabled(s, step) && (step.Register? || step.Unregister?)
    ensures PickOk(Apply(s, step), u)
  {
    assert SharedOk(s, step.i, u);
  }

  /** Whoever takes or gives back a stream of the session holds its mutex, so nobody has just picked one. */
  lemma TakenPick(s: State, t: nat, u: nat)
    requires Locks(s) && Registry(s) && Choices(s) && PickOk(s, u) && Enabled(s, Take(t))
    ensures PickOk(Apply(s, Take(t)), u)
  {
    var s' := Taking(s, t);
    if u != t && AtPc(s, u, Picked) {
      assert MutexOk(s, t, u) && MutexOk(s, u, t);
      assert ChoiceOk(s, t) && StreamOk(s, s.senders[t].session, s.senders[t].socket);
      var r := s.senders[u].session;
      forall i: nat | r < |s.objects| && i in s.objects[r].streams ensures InUse(s', i) == InUse(s, i) {
        assert StreamOk(s, r, i);
      }
      SamePick(s, s', u);
    }
  }

  lemma ReleasedPick(s: State, t: nat, woken: nat, u: nat)
    requires Locks(s) && Registry(s) && Ownership(s) && PickOk(s, u) && Enabled(s, Release(t, woken))
    ensures PickOk(Apply(s, Release(t, woken)), u)
  {
    ReleaseSteps(s, t, woken);
    var s' := Releasing(s, t, woken);
    if u != t && AtPc(s, u, Picked) {
      assert MutexOk(s, t, u) && MutexOk(s, u, t) && OwnerOk(s, t);
      var r := s.senders[u].session;
      forall i: nat | r < |s.objects| && i in s.objects[r].streams ensures InUse(s', i) == InUse(s, i) {
        assert StreamOk(s, r, i);
      }
      SamePick(s, s', u);
    }
  }

  lemma OtherPick(s: State, step: Step, u: nat)
    requires PickOk(s, u) && Enabled(s, step) && (Unregistered(step) || InSend(step) || step.Number?)
    ensures PickOk(Apply(s, step), u)
  {
    var s' := Apply(s, step);
    if AtPc(s', u, Picked) {
      hide Apply, Enabled, PickOk;
      OthersKeepUse(s, step, u);
      SamePick(s, s', u);
    }
  }

  lemma OthersKeepUse(s: State, step: Step, u: nat)
    requires Enabled(s, step) && (Unregistered(step) || InSend(step) || step.Number?)
    requires AtPc(Apply(s, step), u, Picked)
    ensures var s' := Apply(s, step);
            && u < |s.senders| == |s'.senders| && s'.senders[u] == s.senders[u] && |s'.objects| == |s.objects|
            && (forall r :: 0 <= r < |s.objects| ==> s'.objects[r].streams == s.objects[r].streams)
            && forall i :: InUse(s', i) == InUse(s, i)
  {
    hide Apply, Enabled;
    if Unregistered(step) {
      var i, y := SocketSteps(s, step);
    } else if InSend(step) {
      var t := SendSteps(s, step);
    } else {
      NumberKeepsUse(s, step, u);
    }
  }

  lemma NumberKeepsUse(s: State, step: Step, u: nat)
    requires Enabled(s, step) && step.Number? && AtPc(Apply(s, step), u, Picked)
    ensures var s' := Apply(s, step);
            && u < |s.senders| == |s'.senders| && s'.senders[u] == s.senders[u] && |s'.objects| == |s.objects|
            && (forall r :: 0 <= r < |s.objects| ==> s'.objects[r].streams == s.objects[r].streams)
            && s'.sockets == s.sockets
  {
  }

  // ----- wakeups -----

  /** Two threads of one session that wait are after the same stream. */
  lemma SameTarget(s: State, t: nat, u: nat)
    requires Choices(s) && t < |s.senders| && u < |s.senders|
    requires Waits(s.senders[t].pc) && Waits(s.senders[u].pc) && s.senders[t].session == s.senders[u].session
    ensures s.senders[t].socket == s.senders[u].socket
  {
    assert ChoiceOk(s, t) && ChoiceOk(s, u);
  }

  /** A sleeper's witness stays a witness unless it is the acting thread. */
  lemma StillLooks(s: State, s': State, u: nat, w: nat)
    requires AtPc(s, u, Waiting) && AtPc(s', u, Waiting) && s'.senders[u] == s.senders[u]
    requires WillLook(s, w, s.senders[u].session, s.senders[u].socket)
    requires |s'.senders| == |s.senders| && s'.senders[w] == s.senders[w]
    ensures SleepOk(s', u)
  {
    assert WillLook(s', w, s'.senders[u].session, s'.senders[u].socket);
  }

  lemma NoLostWakeupKept(s: State, step: Step)
    requires Locks(s) && Registry(s) && Choices(s) && Ownership(s) && NoLostWakeup(s) && Enabled(s, step)
    ensures NoLostWakeup(Apply(s, step))
  {
    forall u ensures SleepOk(Apply(s, step), u) {
      if Local(step) {
        LocalWakeup(s, step, u);
      } else if step.Register? || step.Unregister? {
        assert SharedOk(s, step.i, u);
      } else if step.Release? {
        ReleaseSteps(s, step.t, step.woken);
        ReleaseWakeup(s, Apply(s, step), step.t, step.woken, u);
      } else if step.Take? {
        TakeWakeup(s, step.t, u);
      } else if step.Number? {
        SleepersUntouched(s, Apply(s, step), step.t, u);
      } else {
        OtherWakeup(s, step, u);
      }
    }
  }

  lemma LocalWakeup(s: State, step: Step, u: nat)
    requires Choices(s) && NoLostWakeup(s) && Enabled(s, step) && Local(step)
    ensures SleepOk(Apply(s, step), u)
  {
    hide Apply, Enabled;
    var s' := Apply(s, step);
    var t, x := LocalSteps(s, step);
    if AtPc(s', u, Waiting) && !InUse(s', s'.senders[u].socket) {
      if u == t {
        // it has just looked at its stream and found it in use
        FellAsleep(s, step);
      } else {
        assert SleepOk(s, u);
        var w :| WillLook(s, w, s.senders[u].session, s.senders[u].socket);
        if w == t {
          StillLooking(s, step, u);
        } else {
          StillLooks(s, s', u, w);
        }
      }
    }
  }

  lemma FellAsleep(s: State, step: Step)
    requires Enabled(s, step) && Local(step) && AtPc(Apply(s, step), step.t, Waiting)
    ensures InUse(Apply(s, step), Apply(s, step).senders[step.t].socket)
  {
  }

  lemma StillLooking(s: State, step: Step, u: nat)
    requires Choices(s) && Enabled(s, step) && Local(step) && u != step.t
    requires AtPc(s, u, Waiting) && !InUse(s, s.senders[u].socket)
    requires WillLook(s, step.t, s.senders[u].session, s.senders[u].socket)
    ensures SleepOk(Apply(s, step), u)
  {
    var s', t := Apply(s, step), step.t;
    if Waits(s.senders[t].pc) {
      SameTarget(s, t, u);
    }
    assert WillLook(s', t, s'.senders[u].session, s'.senders[u].socket);
  }

  lemma ReleaseWakeup(s: State, s': State, t: nat, woken: nat, u: nat)
    requires Registry(s) && Choices(s) && Ownership(s) && NoLostWakeup(s) && ReleaseChange(s, s', t, woken)
    requires if woken == t then NobodyWaits(s, s.senders[t].session)
             else s.senders[woken].session == s.senders[t].session
    ensures SleepOk(s', u)
  {
    var i := s.senders[t].socket;
    if AtPc(s', u, Waiting) && !InUse(s', s'.senders[u].socket) {
      assert s'.senders[u] == s.senders[u];
      if s.senders[u].socket == i {
        assert ChoiceOk(s, u) && StreamOk(s, s.senders[u].session, i) && OwnerOk(s, t);
        assert WillLook(s', woken, s'.senders[u].session, i);
      } else {
        assert SleepOk(s, u);
        var w :| WillLook(s, w, s.senders[u].session, s.senders[u].socket);
        StillLooks(s, s', u, w);
      }
    }
  }

  lemma TakeWakeup(s: State, t: nat, u: nat)
    requires NoLostWakeup(s) && Enabled(s, Take(t))
    ensures SleepOk(Taking(s, t), u)
  {
    var s' := Taking(s, t);
    if AtPc(s', u, Waiting) && !InUse(s', s'.senders[u].socket) {
      assert SleepOk(s, u);
      var w :| WillLook(s, w, s.senders[u].session, s.senders[u].socket);
      StillLooks(s, s', u, w);
    }
  }

  lemma OtherWakeup(s: State, step: Step, u: nat)
    requires NoLostWakeup(s) && Enabled(s, step)
    requires InSend(step) || Unregistered(step)
    ensures SleepOk(Apply(s, step), u)
  {
    hide Apply, Enabled, NoLostWakeup;
    if Unregistered(step) {
      var i, y := SocketSteps(s, step);
      SleepersUntouched(s, Apply(s, step), u, u);
    } else {
      var t := SendSteps(s, step);
      SleepersUntouched(s, Apply(s, step), t, u);
    }
  }

  lemma SleepersUntouched(s: State, s': State, t: nat, u: nat)
    requires NoLostWakeup(s)
    requires |s'.senders| == |s.senders| && forall v :: 0 <= v < |s.senders| && v != t ==> s'.senders[v] == s.senders[v]
    requires |s'.sockets| == |s.sockets|
    requires forall i :: 0 <= i < |s.sockets| ==> s'.sockets[i].inUse == s.sockets[i].inUse
    requires t < |s.senders| && s'.senders[t] != s.senders[t] ==>
               s.senders[t].pc in {Entered, Sending} && s'.senders[t].pc in {Numbered, Sending, Finishing}
    ensures SleepOk(s', u)
  {
    if AtPc(s', u, Waiting) && !InUse(s', s'.senders[u].socket) {
      assert SleepOk(s, u) && s'.senders[u] == s.senders[u];
      var w :| WillLook(s, w, s.senders[u].session, s.senders[u].socket);
      StillLooks(s, s', u, w);
    }
  }
}
