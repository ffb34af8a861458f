/** The connections of one client with a server. */
module Handshake {
  import opened Bytes
  import opened Deframing
  import opened InitialExchange
  import Scheduler
  import SchedulerInvariant
  import SchedulerSafety

  // Any number of them, each with its initial exchange and the data that follows, in any interleaving and
  // however the bytes are cut up.

  datatype Side = Client | Server

  datatype Pc = ToSend | ToReceive | Open | Closed

  datatype End = End(
    pc: Pc,
    hello: seq<byte>,    // its init frame
    out: seq<byte>,      // every byte it has written
    taken: nat,          // bytes of the other end's it has consumed in the exchange
    session: seq<byte>,  // what it has learned
    peer: seq<byte>)

  datatype Connection = Connection(client: End, server: End) {
    function At(side: Side): End {
      if side == Client then client else server
    }

    function Other(side: Side): End {
      if side == Client then server else client
    }

    function With(side: Side, end: End): Connection {
      if side == Client then this.(client := end) else this.(server := end)
    }
  }

  datatype Step =
    | Write(c: nat, side: Side, n: nat)     // n more bytes of the greeting
    | Written(c: nat, side: Side)
    | Hear(c: nat, side: Side, n: nat, reply: seq<byte>)  // once n bytes have arrived
    | Data(c: nat, side: Side, bytes: seq<byte>)
    | Break(c: nat, side: Side)

  predicate EndAt(s: seq<Connection>, c: nat, side: Side, pc: Pc) {
    c < |s| && s[c].At(side).pc == pc
  }

  predicate Enabled(s: seq<Connection>, step: Step) {
    match step
    case Write(c, side, n) =>
      EndAt(s, c, side, ToSend) && 0 < n && |s[c].At(side).out| + n <= |s[c].At(side).hello|
    case Written(c, side) => EndAt(s, c, side, ToSend) && |s[c].At(side).out| == |s[c].At(side).hello|
    case Hear(c, side, n, reply) =>
      && EndAt(s, c, side, ToReceive) && n <= |s[c].Other(side).out|
      && ReceiveOne(s[c].Other(side).out[..n]) != Starved
      && (var heard := Learned(s[c].Other(side).out[..n]);
          side == Server && heard.Agreed? ==> IsGreeting(reply, heard.session, SERVER_NAME))
    case Data(c, side, bytes) => EndAt(s, c, side, Open)
    case Break(c, side) => c < |s|
  }

  function Apply(s: seq<Connection>, step: Step): seq<Connection>
    requires Enabled(s, step)
  {
    var x, end := s[step.c], s[step.c].At(step.side);
    var end' :=
      match step
      case Write(c, side, n) => end.(out := end.out + end.hello[|end.out|..|end.out| + n])
      case Written(c, side) => end.(pc := if side == Client then ToReceive else Open)
      case Hear(c, side, n, reply) =>
        (match Learned(x.Other(side).out[..n])
         case Agreed(peer, session) =>
           var taken := |ReceiveOne(x.Other(side).out[..n]).frame|;
           if side == Client then end.(pc := Open, taken := taken, session := session, peer := peer)
           else end.(pc := ToSend, taken := taken, session := session, peer := peer, hello := reply)
         case _ => end.(pc := Closed))
      case Data(c, side, bytes) => end.(out := end.out + bytes)
      case Break(c, side) => end.(pc := Closed);
    s[step.c := x.With(step.side, end')]
  }

  /** The client greets first, on every connection with the same session; the server waits. */
  ghost predicate Initial(s: seq<Connection>, id: seq<byte>) {
    forall c :: 0 <= c < |s| ==>
      && s[c].client.pc == ToSend && s[c].client.out == [] && IsGreeting(s[c].client.hello, id, CLIENT_NAME)
      && s[c].server.pc == ToReceive && s[c].server.out == []
  }

  ghost predicate Follows(states: seq<seq<Connection>>, steps: seq<Step>, k: nat) {
    && k < |steps| && |states| == |steps| + 1
    && Enabled(states[k], steps[k])
    && states[k + 1] == Apply(states[k], steps[k])
  }

  ghost predicate Run(states: seq<seq<Connection>>, steps: seq<Step>, id: seq<byte>) {
    && |states| == |steps| + 1 && Initial(states[0], id)
    && forall k :: 0 <= k < |steps| ==> Follows(states, steps, k)
  }

  /** What has been written is the beginning of the greeting, or the greeting and more. */
  predicate Begins(end: End) {
    end.out <= end.hello || end.hello <= end.out
  }

  /** The end has written its greeting and maybe more, and the other end has learned the truth from it. */
  predicate Heard(end: End, other: End, id: seq<byte>, name: seq<byte>) {
    other.hello <= other.out && end.taken == |other.hello| && end.session == id && end.peer == name
  }

  ghost predicate ClientOk(x: Connection, id: seq<byte>) {
    && IsGreeting(x.client.hello, id, CLIENT_NAME) && Begins(x.client)
    && (x.client.pc == ToSend ==> x.client.out <= x.client.hello)
    && (x.client.pc == ToReceive ==> x.client.out == x.client.hello)
    && (x.client.pc == Open ==>
          x.client.hello <= x.client.out && Heard(x.client, x.server, id, SERVER_NAME) && x.server.out != [])
  }

  ghost predicate ServerOk(x: Connection, id: seq<byte>) {
    && (x.server.pc == ToReceive ==> x.server.out == [])
    && (x.server.pc == ToSend ==> x.server.out <= x.server.hello)
    && (x.server.pc == Open ==> x.server.hello <= x.server.out)
    && (x.server.pc == ToSend || x.server.pc == Open || x.server.out != [] ==>
          Heard(x.server, x.client, id, CLIENT_NAME) && IsGreeting(x.server.hello, id, SERVER_NAME) && Begins(x.server))
  }

  ghost predicate Invariant(s: seq<Connection>, id: seq<byte>) {
    forall c :: 0 <= c < |s| ==> ClientOk(s[c], id) && ServerOk(s[c], id)
  }

  /** However much of what an end has written has arrived, either more is awaited or exactly its greeting
      is taken. */
  lemma GreetingHeard(end: End, n: nat, id: seq<byte>, name: seq<byte>)
    requires IsName(name) && n <= |end.out| && (end.out != [] ==> Begins(end) && IsGreeting(end.hello, id, name))
    ensures ReceiveOne(end.out[..n]) != Starved ==>
              && ReceiveOne(end.out[..n]) == Frame(end.hello) && Learned(end.out[..n]) == Agreed(name, id)
              && end.hello <= end.out && end.out != []
  {
    if end.out != [] {
      if n < |end.hello| {
        assert end.out[..n] == end.hello[..n];
        ReceiveOnePart(end.out[..n], end.hello);
      } else {
        assert end.out[..n] == end.hello + end.out[..n][|end.hello|..];
        GreetingTeaches(end.hello, id, name, end.out[..n][|end.hello|..]);
      }
    }
  }

  /** In the exchange neither end ever meets anything but the other's greeting. */
  lemma HearAgrees(s: seq<Connection>, id: seq<byte>, step: Step)
    requires Invariant(s, id) && Enabled(s, step) && step.Hear?
    ensures var other := s[step.c].Other(step.side);
            && Learned(other.out[..step.n]) == Agreed(if step.side == Client then SERVER_NAME else CLIENT_NAME, id)
            && ReceiveOne(other.out[..step.n]) == Frame(other.hello) && other.hello <= other.out && other.out != []
  {
    var x := s[step.c];
    NamesAreNames();
    if step.side == Client {
      assert ServerOk(x, id);
      GreetingHeard(x.server, step.n, id, SERVER_NAME);
    } else {
      assert ClientOk(x, id);
      GreetingHeard(x.client, step.n, id, CLIENT_NAME);
    }
  }

  lemma HearKeeps(s: seq<Connection>, id: seq<byte>, step: Step)
    requires Invariant(s, id) && Enabled(s, step) && step.Hear?
    ensures ClientOk(Apply(s, step)[step.c], id) && ServerOk(Apply(s, step)[step.c], id)
  {
    HearAgrees(s, id, step);
    assert ClientOk(s[step.c], id) && ServerOk(s[step.c], id);
  }

  lemma WriteKeeps(s: seq<Connection>, id: seq<byte>, step: Step)
    requires Invariant(s, id) && Enabled(s, step) && step.Write?
    ensures ClientOk(Apply(s, step)[step.c], id) && ServerOk(Apply(s, step)[step.c], id)
  {
    assert ClientOk(s[step.c], id) && ServerOk(s[step.c], id);
    var end := s[step.c].At(step.side);
    assert end.out + end.hello[|end.out|..|end.out| + step.n] <= end.hello;
  }

  lemma DataKeeps(s: seq<Connection>, id: seq<byte>, step: Step)
    requires Invariant(s, id) && Enabled(s, step) && step.Data?
    ensures ClientOk(Apply(s, step)[step.c], id) && ServerOk(Apply(s, step)[step.c], id)
  {
    var x := s[step.c];
    assert ClientOk(x, id) && ServerOk(x, id);
  }

  lemma TurnKeeps(s: seq<Connection>, id: seq<byte>, step: Step)
    requires Invariant(s, id) && Enabled(s, step) && (step.Written? || step.Break?)
    ensures ClientOk(Apply(s, step)[step.c], id) && ServerOk(Apply(s, step)[step.c], id)
  {
    assert ClientOk(s[step.c], id) && ServerOk(s[step.c], id);
  }

  lemma InvariantKept(s: seq<Connection>, id: seq<byte>, step: Step)
    requires Invariant(s, id) && Enabled(s, step)
    ensures Invariant(Apply(s, step), id)
  {
    match step
    case Hear(_, _, _, _) => HearKeeps(s, id, step);
    case Write(_, _, _) => WriteKeeps(s, id, step);
    case Data(_, _, _) => DataKeeps(s, id, step);
    case _ => TurnKeeps(s, id, step);
  }

  lemma {:induction false} EveryRunKeepsInvariant(states: seq<seq<Connection>>, steps: seq<Step>, id: seq<byte>, k: nat)
    requires Run(states, steps, id) && k < |states|
    ensures Invariant(states[k], id)
  {
    if k > 0 {
      EveryRunKeepsInvariant(states, steps, id, k - 1);
      assert Follows(states, steps, k - 1);
      InvariantKept(states[k - 1], id, steps[k - 1]);
    }
  }

  /** Both ends of every connection that gets through the exchange hold the client's session and know
      the other by its name; each has sent its init frame, number 0, before anything else, and the other
      has consumed exactly that much, so the receive loop that follows starts with the first data byte. */
  lemma EndsAgree(states: seq<seq<Connection>>, steps: seq<Step>, id: seq<byte>, c: nat, side: Side)
    requires Run(states, steps, id) && c < |states[|steps|]| && states[|steps|][c].At(side).pc == Open
    ensures var x := states[|steps|][c]; var end, other := x.At(side), x.Other(side);
            && end.session == id && end.peer == (if side == Client then SERVER_NAME else CLIENT_NAME)
            && IsGreeting(end.hello, id, if side == Client then CLIENT_NAME else SERVER_NAME)
            && IsGreeting(other.hello, id, if side == Client then SERVER_NAME else CLIENT_NAME)
            && end.hello <= end.out && end.taken <= |other.out|
            && other.out == other.hello + other.out[end.taken..]
  {
    EveryRunKeepsInvariant(states, steps, id, |steps|);
    var x := states[|steps|][c];
    assert ClientOk(x, id) && ServerOk(x, id);
    var other := x.Other(side);
    assert other.out == other.hello + other.out[|other.hello|..];
  }

  /** No exchange fails because of what was received: it ends in agreement unless the connection breaks. */
  lemma HearingNeverFails(states: seq<seq<Connection>>, steps: seq<Step>, id: seq<byte>, step: Step)
    requires Run(states, steps, id) && step.Hear? && Enabled(states[|steps|], step)
    ensures Apply(states[|steps|], step)[step.c].At(step.side).pc == if step.side == Client then Open else ToSend
  {
    EveryRunKeepsInvariant(states, steps, id, |steps|);
    HearAgrees(states[|steps|], id, step);
  }

  /** The data that an end has written so far. */
  function DataOf(steps: seq<Step>, c: nat, side: Side): seq<byte> {
    if steps == [] then []
    else DataOf(steps[..|steps| - 1], c, side) + NewData(steps[|steps| - 1], c, side)
  }

  ghost predicate DataOk(end: End, data: seq<byte>) {
    && (end.pc == Open ==> end.out == end.hello + data)
    && (end.pc == ToSend || end.pc == ToReceive ==> data == [])
  }

  function NewData(step: Step, c: nat, side: Side): seq<byte> {
    if step.Data? && step.c == c && step.side == side then step.bytes else []
  }

  lemma DataStep(s: seq<Connection>, id: seq<byte>, step: Step, c: nat, side: Side, data: seq<byte>)
    requires Invariant(s, id) && Enabled(s, step) && c < |s| && DataOk(s[c].At(side), data)
    ensures c < |Apply(s, step)| && DataOk(Apply(s, step)[c].At(side), data + NewData(step, c, side))
  {
    assert data + [] == data;
    if step.c == c && step.side == side {
      assert ClientOk(s[c], id) && ServerOk(s[c], id);
      OwnStep(s[c], id, s, step, data);
    }
  }

  lemma OwnStep(x: Connection, id: seq<byte>, s: seq<Connection>, step: Step, data: seq<byte>)
    requires Enabled(s, step) && x == s[step.c] && ClientOk(x, id) && ServerOk(x, id) && DataOk(x.At(step.side), data)
    ensures DataOk(Apply(s, step)[step.c].At(step.side), data + NewData(step, step.c, step.side))
  {
    hide IsGreeting;
    var end := x.At(step.side);
    assert end.hello + (data + NewData(step, step.c, step.side)) == end.hello + data + NewData(step, step.c, step.side);
    assert end.hello + [] == end.hello;
  }

  /** What an end that has got through has written is its greeting and then exactly its data; so that is what
      the other end's receive loop starts with. */
  lemma {:induction false} DataFollows(states: seq<seq<Connection>>, steps: seq<Step>, id: seq<byte>, k: nat,
                                       c: nat, side: Side)
    requires Run(states, steps, id) && k < |states| && c < |states[0]|
    ensures c < |states[k]| && DataOk(states[k][c].At(side), DataOf(steps[..k], c, side))
  {
    hide Invariant, Apply, Enabled, DataOk;
    if k > 0 {
      DataFollows(states, steps, id, k - 1, c, side);
      EveryRunKeepsInvariant(states, steps, id, k - 1);
      assert Follows(states, steps, k - 1);
      DataStep(states[k - 1], id, steps[k - 1], c, side, DataOf(steps[..k - 1], c, side));
      assert steps[..k][..k - 1] == steps[..k - 1];
    } else {
      NoDataYet(states[0], id, c, side);
    }
  }

  lemma NoDataYet(s: seq<Connection>, id: seq<byte>, c: nat, side: Side)
    requires Initial(s, id) && c < |s|
    ensures DataOk(s[c].At(side), [])
  {
  }

  /** A step closes an end exactly if it is the breaking of its side, and a closed end stays so. */
  lemma ClosesOnBreak(s: seq<Connection>, id: seq<byte>, step: Step, c: nat, side: Side)
    requires Invariant(s, id) && Enabled(s, step) && c < |s|
    ensures c < |Apply(s, step)|
    ensures Apply(s, step)[c].At(side).pc == Closed <==> s[c].At(side).pc == Closed || step == Break(c, side)
  {
    if step.Hear? {
      HearAgrees(s, id, step);
    }
  }

  /** The exchange never closes a connection by itself: in every run an end is closed if and only if it broke. */
  lemma {:induction false} OnlyBreakingCloses(states: seq<seq<Connection>>, steps: seq<Step>, id: seq<byte>, k: nat,
                                              c: nat, side: Side)
    requires Run(states, steps, id) && k < |states| && c < |states[0]|
    ensures c < |states[k]|
    ensures states[k][c].At(side).pc == Closed <==> exists m :: 0 <= m < k && steps[m] == Break(c, side)
  {
    hide Apply, Enabled;
    if k > 0 {
      OnlyBreakingCloses(states, steps, id, k - 1, c, side);
      EveryRunKeepsInvariant(states, steps, id, k - 1);
      assert Follows(states, steps, k - 1);
      ClosesOnBreak(states[k - 1], id, steps[k - 1], c, side);
    }
  }

  /** Such a run leads from s to s'. */
  ghost predicate Leads(s: seq<Connection>, s': seq<Connection>, id: seq<byte>) {
    exists states, steps :: Run(states, steps, id) && states[0] == s && states[|steps|] == s'
  }

  lemma Go(s0: seq<Connection>, s: seq<Connection>, id: seq<byte>, step: Step) returns (s': seq<Connection>)
    requires Leads(s0, s, id) && Enabled(s, step)
    ensures Leads(s0, s', id) && s' == Apply(s, step)
  {
    var states, steps :| Run(states, steps, id) && states[0] == s0 && states[|steps|] == s;
    s' := Apply(s, step);
    var states', steps' := states + [s'], steps + [step];
    forall k | 0 <= k < |steps'| ensures Follows(states', steps', k) {
      assert k < |steps| ==> Follows(states, steps, k);
    }
    assert Run(states', steps', id) && states'[0] == s0 && states'[|steps'|] == s';
  }

  /** One end writes all of its greeting. */
  lemma Greets(s0: seq<Connection>, s: seq<Connection>, id: seq<byte>, c: nat, side: Side) returns (s': seq<Connection>)
    requires Leads(s0, s, id) && EndAt(s, c, side, ToSend) && s[c].At(side).out == [] && s[c].At(side).hello != []
    ensures Leads(s0, s', id) && |s'| == |s| && s'[c].Other(side) == s[c].Other(side)
    ensures s'[c].At(side) == s[c].At(side).(out := s[c].At(side).hello,
                                             pc := if side == Client then ToReceive else Open)
  {
    hide Leads;
    var hello := s[c].At(side).hello;
    s' := Go(s0, s, id, Write(c, side, |hello|));
    assert [] + hello[0..|hello|] == hello;
    s' := Go(s0, s', id, Written(c, side));
  }

  /** The other end hears it. */
  lemma Hears(s0: seq<Connection>, s: seq<Connection>, id: seq<byte>, c: nat, side: Side, reply: seq<byte>,
              name: seq<byte>)
    returns (s': seq<Connection>)
    requires Leads(s0, s, id) && EndAt(s, c, side, ToReceive) && IsName(name)
    requires IsGreeting(s[c].Other(side).out, id, name) && IsGreeting(reply, id, SERVER_NAME)
    ensures Leads(s0, s', id) && |s'| == |s| && s'[c].Other(side) == s[c].Other(side)
    ensures s'[c].At(side).out == s[c].At(side).out
    ensures s'[c].At(side).pc == if side == Client then Open else ToSend
    ensures s'[c].At(side).hello == if side == Client then s[c].At(side).hello else reply
  {
    hide Leads, IsGreeting;
    var out := s[c].Other(side).out;
    assert out + [] == out == out[..|out|];
    GreetingTeaches(out, id, name, []);
    s' := Go(s0, s, id, Hear(c, side, |out|, reply));
  }

  /** And it does get through: from wherever the connections start there is a run after which both ends of the
      c-th are open. */
  lemma BothGetThrough(s: seq<Connection>, id: seq<byte>, c: nat) returns (s': seq<Connection>)
    requires Initial(s, id) && c < |s|
    ensures Leads(s, s', id) && EndAt(s', c, Client, Open) && EndAt(s', c, Server, Open)
  {
    NamesAreNames();
    assert |s[c].client.hello| >= 1 && |id| == 16;
    var none: seq<Step>, reply := [], GreetingBytes(id, SERVER_NAME);
    assert Run([s], none, id) && [s][|none|] == s;
    GreetingBytesGreet(id, SERVER_NAME);
    hide GreetingBytes, Leads;
    s' := Greets(s, s, id, c, Client);
    s' := Hears(s, s', id, c, Server, reply, CLIENT_NAME);
    s' := Greets(s, s', id, c, Server);
    s' := Hears(s, s', id, c, Client, reply, SERVER_NAME);
  }

  /** On either side, sockets that all hold the same session are never refused, and all that are
      registered at one time serve the same session object. */
  lemma SameSession(s: Scheduler.State, id: seq<byte>, i: nat, j: nat)
    requires SchedulerSafety.Reachable(s) && i < |s.sockets| && j < |s.sockets|
    requires forall k :: 0 <= k < |s.sockets| ==> s.sockets[k].id == id
    ensures s.sockets[i].pc == Scheduler.Registering ==>
              && Scheduler.Enabled(s, Scheduler.Register(i))
              && Scheduler.Apply(s, Scheduler.Register(i)).sockets[i].pc == Scheduler.Serving
    ensures SchedulerInvariant.Listed(s.sockets[i].pc) && SchedulerInvariant.Listed(s.sockets[j].pc) ==>
              s.sockets[i].session == s.sockets[j].session && id in s.sessions && s.sessions[id] == s.sockets[i].session
  {
    SchedulerSafety.ReachableInvariant(s);
    assert SchedulerInvariant.ListedOk(s, i) && SchedulerInvariant.ListedOk(s, j);
    assert SchedulerInvariant.ObjectOk(s, s.sockets[i].session) && SchedulerInvariant.ObjectOk(s, s.sockets[j].session);
    if s.sockets[i].pc == Scheduler.Registering {
      forall other | other in s.sessions ensures other == id {
        var k := SchedulerSafety.SomeoneListed(s, other);
        assert SchedulerInvariant.ListedOk(s, k);
        assert SchedulerInvariant.ObjectOk(s, s.sockets[k].session);
        assert SchedulerInvariant.InMapOk(s, other);
      }
      SchedulerSafety.SecondSessionRefused(s, i);
    }
  }
}
