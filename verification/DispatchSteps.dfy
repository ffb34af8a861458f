/** Several socket threads that deal out frames at the same time. */
module DispatchSteps {
  import opened FrameFormat
  import opened Dispatch

  // Drawing a ticket is one atomic step and writing to a queue, under that queue's mutex, is another; so
  // the datagrams of different frames mix, and tickets can overtake each other on their way to a queue.

  datatype Entry = Entry(ticket: nat, thread: nat, datagram: Datagram)

  /** What a socket thread still has to deal out of its frame, the ticket it holds, or 0, and whether a write
      of its threw. `given` and `dealt` are history: everything it was given, and what it has written or lost
      of that. */
  datatype Thread = Thread(todo: seq<Datagram>, ticket: nat, ended: bool, given: seq<Datagram>, dealt: seq<Entry>)

  /** What became of ticket k + 1. */
  datatype Fate = Held(thread: nat) | Placed(index: nat) | Lost

  datatype State = State(threads: seq<Thread>, queues: seq<seq<Entry>>, fates: seq<Fate>)

  datatype Step =
    | Begin(t: nat, frame: seq<Datagram>)
    | Draw(t: nat)
    | Write(t: nat)
    | Fail(t: nat)  // the write throws: the ticket is lost and the thread ends

  /** The queue of a ticket. */
  function QueueOf(s: State, ticket: nat): nat
    requires s.queues != []
  {
    ticket % |s.queues|
  }

  predicate Holds(s: State, t: nat) {
    t < |s.threads| && 0 < s.threads[t].ticket <= |s.fates| && s.threads[t].todo != [] && s.queues != []
  }

  predicate Enabled(s: State, step: Step) {
    match step
    case Begin(t, frame) => t < |s.threads| && s.threads[t].todo == [] && !s.threads[t].ended
    case Draw(t) => t < |s.threads| && s.threads[t].todo != [] && s.threads[t].ticket == 0 && !s.threads[t].ended
    case Write(t) => Holds(s, t) && s.threads[t].todo[0] != []
    case Fail(t) => Holds(s, t)
  }

  /** The thread is done with the first datagram and its ticket. */
  function Dealing(x: Thread, t: nat, ended: bool): Thread
    requires x.todo != []
  {
    x.(todo := x.todo[1..], ticket := 0, ended := ended, dealt := x.dealt + [Entry(x.ticket, t, x.todo[0])])
  }

  function Apply(s: State, step: Step): State
    requires Enabled(s, step)
  {
    var x := s.threads[step.t];
    match step
    case Begin(t, frame) => s.(threads := s.threads[t := x.(todo := frame, given := x.given + frame)])
    case Draw(t) => s.(threads := s.threads[t := x.(ticket := |s.fates| + 1)], fates := s.fates + [Held(t)])
    case Write(t) =>
      var q := QueueOf(s, x.ticket);
      State(s.threads[t := Dealing(x, t, false)],
            s.queues[q := s.queues[q] + [Entry(x.ticket, t, x.todo[0])]],
            s.fates[x.ticket - 1 := Placed(|s.queues[q]|)])
    case Fail(t) => s.(threads := s.threads[t := Dealing(x, t, true)], fates := s.fates[x.ticket - 1 := Lost])
  }

  ghost predicate Initial(s: State) {
    && s.queues != [] && s.fates == []
    && (forall q :: 0 <= q < |s.queues| ==> s.queues[q] == [])
    && forall t :: 0 <= t < |s.threads| ==> s.threads[t] == Thread([], 0, false, [], [])
  }

  ghost predicate Follows(states: seq<State>, steps: seq<Step>, k: nat) {
    && k < |steps| && |states| == |steps| + 1
    && Enabled(states[k], steps[k]) && states[k + 1] == Apply(states[k], steps[k])
  }

  ghost predicate Run(states: seq<State>, steps: seq<Step>) {
    |states| == |steps| + 1 && Initial(states[0]) && forall k :: 0 <= k < |steps| ==> Follows(states, steps, k)
  }

  // ----- invariant -----

  ghost predicate FateOk(s: State, k: nat) {
    k < |s.fates| && s.queues != [] ==>
      var q := s.queues[QueueOf(s, k + 1)];
      match s.fates[k]
      case Held(t) => t < |s.threads| && s.threads[t].ticket == k + 1
      case Placed(j) => j < |q| && q[j].ticket == k + 1
      case Lost => true
  }

  ghost predicate EntryOk(s: State, q: nat, j: nat) {
    q < |s.queues| && j < |s.queues[q]| ==>
      var e := s.queues[q][j];
      0 < e.ticket <= |s.fates| && QueueOf(s, e.ticket) == q && s.fates[e.ticket - 1] == Placed(j)
      && e.thread < |s.threads| && e in s.threads[e.thread].dealt
  }

  function Datagrams(dealt: seq<Entry>): seq<Datagram> {
    if dealt == [] then [] else Datagrams(dealt[..|dealt| - 1]) + [dealt[|dealt| - 1].datagram]
  }

  /** The tickets a thread has used, in the order of its datagrams, are ascending; the one it holds is the
      largest. */
  ghost predicate ThreadOk(s: State, t: nat) {
    t < |s.threads| ==>
      var x := s.threads[t];
      && x.given == Datagrams(x.dealt) + x.todo
      && (x.ticket != 0 ==> x.todo != [] && x.ticket <= |s.fates| && s.fates[x.ticket - 1] == Held(t))
      && (forall a :: 0 <= a < |x.dealt| ==> DealtOk(s, t, a))
      && forall a, b :: 0 <= a < b < |x.dealt| ==> x.dealt[a].ticket < x.dealt[b].ticket
  }

  ghost predicate DealtOk(s: State, t: nat, a: nat) {
    t < |s.threads| && a < |s.threads[t].dealt| ==>
      var x, e := s.threads[t], s.threads[t].dealt[a];
      && e.thread == t && 0 < e.ticket <= |s.fates| && (x.ticket != 0 ==> e.ticket < x.ticket)
      && !s.fates[e.ticket - 1].Held?
  }

  /** Of one thread, the earlier entry of a queue has the smaller ticket. */
  ghost predicate OrderOk(s: State, q: nat, i: nat, j: nat) {
    q < |s.queues| && i < j < |s.queues[q]| && s.queues[q][i].thread == s.queues[q][j].thread ==>
      s.queues[q][i].ticket < s.queues[q][j].ticket
  }

  /** The tickets of queue q that have put nothing there (yet). */
  function Missing(fates: seq<Fate>, n: nat, q: nat): nat
    requires n > 0
  {
    if fates == [] then 0
    else Missing(fates[..|fates| - 1], n, q) + if !fates[|fates| - 1].Placed? && |fates| % n == q then 1 else 0
  }

  /** How many of the tickets 1 .. last are queue q's. */
  function Tickets(last: nat, n: nat, q: nat): nat
    requires n > 0
  {
    |Share(seq(last, _ => Attempt.Written([])), 1, n, q)|
  }

  ghost predicate SizeOk(s: State, q: nat) {
    q < |s.queues| ==> |s.queues[q]| + Missing(s.fates, |s.queues|, q) == Tickets(|s.fates|, |s.queues|, q)
  }

  ghost predicate Invariant(s: State) {
    && s.queues != []
    && (forall k :: FateOk(s, k)) && (forall q, j :: EntryOk(s, q, j)) && (forall t :: ThreadOk(s, t))
    && (forall q, i, j :: OrderOk(s, q, i, j)) && (forall q :: SizeOk(s, q))
  }

  lemma OneMoreTicket(last: nat, n: nat, q: nat)
    requires n > 0
    ensures Tickets(last + 1, n, q) == Tickets(last, n, q) + if (last + 1) % n == q then 1 else 0
  {
    var one := [Attempt.Written([])];
    ShareAppend(seq(last, _ => Attempt.Written([])), one, 1, n, q);
    assert seq(last + 1, _ => Attempt.Written([])) == seq(last, _ => Attempt.Written([])) + one;
    assert one[1..] == [];
  }

  lemma {:induction false} MissingUpdate(fates: seq<Fate>, k: nat, fate: Fate, n: nat, q: nat)
    requires n > 0 && k < |fates| && fates[k].Held?
    ensures Missing(fates, n, q) ==
            Missing(fates[k := fate], n, q) + if fate.Placed? && (k + 1) % n == q then 1 else 0
  {
    var front := fates[..|fates| - 1];
    if k == |fates| - 1 {
      assert fates[k := fate][..|fates| - 1] == front;
    } else {
      MissingUpdate(front, k, fate, n, q);
      assert fates[k := fate][..|fates| - 1] == front[k := fate];
    }
  }

  lemma DatagramsSnoc(dealt: seq<Entry>, e: Entry)
    ensures Datagrams(dealt + [e]) == Datagrams(dealt) + [e.datagram]
  {
    assert (dealt + [e])[..|dealt|] == dealt;
  }

  lemma InvariantAtStart(s: State)
    requires Initial(s)
    ensures Invariant(s)
  {
    forall q ensures SizeOk(s, q) {
      assert seq(0, _ => Attempt.Written([])) == [];
    }
    forall t: nat ensures ThreadOk(s, t) {
      assert t < |s.threads| ==> s.threads[t] == Thread([], 0, false, [], []);
    }
  }

  lemma BeginKeeps(s: State, t: nat, frame: seq<Datagram>)
    requires Invariant(s) && Enabled(s, Begin(t, frame))
    ensures Invariant(Apply(s, Begin(t, frame)))
  {
    var s' := Apply(s, Begin(t, frame));
    forall k ensures FateOk(s', k) { assert FateOk(s, k); }
    forall q, j ensures EntryOk(s', q, j) { assert EntryOk(s, q, j); }
    forall u ensures ThreadOk(s', u) {
      assert ThreadOk(s, u);
      forall a: nat ensures DealtOk(s', u, a) { assert DealtOk(s, u, a); }
      assert u == t ==> s.threads[t].given + [] == s.threads[t].given;
    }
    forall q, i, j ensures OrderOk(s', q, i, j) { assert OrderOk(s, q, i, j); }
    forall q ensures SizeOk(s', q) { assert SizeOk(s, q); }
  }

  lemma DrawKeeps(s: State, t: nat)
    requires Invariant(s) && Enabled(s, Draw(t))
    ensures Invariant(Apply(s, Draw(t)))
  {
    var s' := Apply(s, Draw(t));
    forall k ensures FateOk(s', k) { assert FateOk(s, k); }
    forall q, j ensures EntryOk(s', q, j) { assert EntryOk(s, q, j); }
    forall u ensures ThreadOk(s', u) {
      assert ThreadOk(s, u);
      forall a: nat ensures DealtOk(s', u, a) { assert DealtOk(s, u, a); }
    }
    forall q, i, j ensures OrderOk(s', q, i, j) { assert OrderOk(s, q, i, j); }
    forall q ensures SizeOk(s', q) {
      assert SizeOk(s, q) && s'.fates[..|s.fates|] == s.fates;
      OneMoreTicket(|s.fates|, |s.queues|, q);
    }
  }

  /** What dealing does to the threads, whatever becomes of the ticket. */
  lemma DealingKeepsThreads(s: State, s': State, t: nat, ended: bool, fate: Fate)
    requires Invariant(s) && Holds(s, t) && s'.threads == s.threads[t := Dealing(s.threads[t], t, ended)]
    requires s'.fates == s.fates[s.threads[t].ticket - 1 := fate] && !fate.Held?
    ensures forall u :: ThreadOk(s', u)
  {
    var x := s.threads[t];
    DatagramsSnoc(x.dealt, Entry(x.ticket, t, x.todo[0]));
    assert Datagrams(x.dealt) + x.todo == Datagrams(x.dealt) + [x.todo[0]] + x.todo[1..];
    forall u ensures ThreadOk(s', u) {
      assert ThreadOk(s, u) && ThreadOk(s, t);
      forall a: nat ensures DealtOk(s', u, a) { assert DealtOk(s, u, a); }
      forall a: nat | u == t && a < |x.dealt| ensures x.dealt[a].ticket < x.ticket { assert DealtOk(s, t, a); }
    }
  }

  lemma WriteKeepsOrder(s: State, t: nat, q: nat, i: nat, j: nat)
    requires Invariant(s) && Enabled(s, Write(t))
    ensures OrderOk(Apply(s, Write(t)), q, i, j)
  {
    var x := s.threads[t];
    assert OrderOk(s, q, i, j) && EntryOk(s, q, i);
    if q < |s.queues| && i < |s.queues[q]| && s.queues[q][i].thread == t {
      var a: nat :| a < |x.dealt| && x.dealt[a] == s.queues[q][i];
      assert ThreadOk(s, t) && DealtOk(s, t, a);
    }
  }

  lemma WriteKeepsPlaces(s: State, t: nat)
    requires Invariant(s) && Enabled(s, Write(t))
    ensures forall k :: FateOk(Apply(s, Write(t)), k)
    ensures forall q, j :: EntryOk(Apply(s, Write(t)), q, j)
  {
    var s' := Apply(s, Write(t));
    assert ThreadOk(s, t);
    forall k ensures FateOk(s', k) { assert FateOk(s, k); }
    forall q, j ensures EntryOk(s', q, j) { assert EntryOk(s, q, j); }
  }

  lemma WriteKeeps(s: State, t: nat)
    requires Invariant(s) && Enabled(s, Write(t))
    ensures Invariant(Apply(s, Write(t)))
  {
    var s', x := Apply(s, Write(t)), s.threads[t];
    assert ThreadOk(s, t);
    WriteKeepsPlaces(s, t);
    DealingKeepsThreads(s, s', t, false, s'.fates[x.ticket - 1]);
    hide FateOk, EntryOk, ThreadOk, OrderOk;
    forall q: nat, i: nat, j: nat ensures OrderOk(s', q, i, j) { WriteKeepsOrder(s, t, q, i, j); }
    forall q ensures SizeOk(s', q) {
      assert SizeOk(s, q);
      MissingUpdate(s.fates, x.ticket - 1, s'.fates[x.ticket - 1], |s.queues|, q);
    }
  }

  lemma FailKeeps(s: State, t: nat)
    requires Invariant(s) && Enabled(s, Fail(t))
    ensures Invariant(Apply(s, Fail(t)))
  {
    var s', x := Apply(s, Fail(t)), s.threads[t];
    assert ThreadOk(s, t);
    DealingKeepsThreads(s, s', t, true, Lost);
    forall k ensures FateOk(s', k) { assert FateOk(s, k); }
    forall q, j ensures EntryOk(s', q, j) { assert EntryOk(s, q, j); }
    forall q, i, j ensures OrderOk(s', q, i, j) { assert OrderOk(s, q, i, j); }
    forall q ensures SizeOk(s', q) {
      assert SizeOk(s, q);
      MissingUpdate(s.fates, x.ticket - 1, Lost, |s.queues|, q);
    }
  }

  lemma {:induction false} EveryRunKeepsInvariant(states: seq<State>, steps: seq<Step>, k: nat)
    requires Run(states, steps) && k < |states|
    ensures Invariant(states[k])
  {
    hide Invariant, Apply;
    if k == 0 {
      InvariantAtStart(states[0]);
    } else {
      EveryRunKeepsInvariant(states, steps, k - 1);
      assert Follows(states, steps, k - 1);
      match steps[k - 1] {
        case Begin(t, frame) => BeginKeeps(states[k - 1], t, frame);
        case Draw(t) => DrawKeeps(states[k - 1], t);
        case Write(t) => WriteKeeps(states[k - 1], t);
        case Fail(t) => FailKeeps(states[k - 1], t);
      }
    }
  }

  // ----- what follows -----

  /** Each ticket drawn is held by one thread, or lost, or stands at one place of the queue it belongs to and
      nowhere else; so no datagram is written twice, and none to another queue than its ticket's. */
  lemma EachTicketOnce(states: seq<State>, steps: seq<Step>, k: nat, q: nat, j: nat, q': nat, j': nat)
    requires Run(states, steps)
    ensures FateOk(states[|steps|], k)
    ensures var s := states[|steps|];
            q < |s.queues| && j < |s.queues[q]| ==>
              && 0 < s.queues[q][j].ticket <= |s.fates| && s.queues[q][j].ticket % |s.queues| == q
              && forall t :: 0 <= t < |s.threads| ==> s.threads[t].ticket != s.queues[q][j].ticket
    ensures var s := states[|steps|];
            (q < |s.queues| && j < |s.queues[q]| && q' < |s.queues| && j' < |s.queues[q']|
             && s.queues[q][j].ticket == s.queues[q'][j'].ticket) ==> (q == q' && j == j')
  {
    EveryRunKeepsInvariant(states, steps, |steps|);
    var s := states[|steps|];
    assert EntryOk(s, q, j) && EntryOk(s, q', j');
    forall t: nat | t < |s.threads| && q < |s.queues| && j < |s.queues[q]|
      ensures s.threads[t].ticket != s.queues[q][j].ticket
    {
      assert ThreadOk(s, t);
    }
  }

  /** The frames that thread t has begun to deal out, joined. */
  function Begun(steps: seq<Step>, t: nat): seq<Datagram> {
    if steps == [] then []
    else
      var last := steps[|steps| - 1];
      Begun(steps[..|steps| - 1], t) + if last.Begin? && last.t == t then last.frame else []
  }

  lemma {:induction false} GivenIsBegun(states: seq<State>, steps: seq<Step>, k: nat, t: nat)
    requires Run(states, steps) && k < |states| && t < |states[k].threads|
    ensures states[k].threads[t].given == Begun(steps[..k], t)
  {
    if k > 0 {
      assert Follows(states, steps, k - 1);
      GivenIsBegun(states, steps, k - 1, t);
      assert steps[..k][..k - 1] == steps[..k - 1];
      assert states[k - 1].threads[t].given + [] == states[k - 1].threads[t].given;
    } else {
      assert states[0].threads[t] == Thread([], 0, false, [], []);
    }
  }

  /** A write that throws ends its thread: it deals out nothing more. */
  lemma {:induction false} FailureEndsThread(states: seq<State>, steps: seq<Step>, j: nat, k: nat, t: nat)
    requires Run(states, steps) && j < k < |states| && steps[j] == Fail(t)
    ensures t < |states[k].threads| && t < |states[j].threads| && states[j].threads[t].todo != []
    ensures states[k].threads[t] == Dealing(states[j].threads[t], t, true)
  {
    assert Follows(states, steps, k - 1);
    if k > j + 1 {
      FailureEndsThread(states, steps, j, k - 1, t);
    }
  }

  /** What a thread was given, the frames it has begun, is, in order, what it has dealt, with ascending tickets,
      and what it still has; and in every queue the thread's own datagrams keep that order. */
  lemma ThreadsKeepOrder(states: seq<State>, steps: seq<Step>, t: nat, q: nat, i: nat, j: nat)
    requires Run(states, steps)
    ensures var s := states[|steps|];
            t < |s.threads| ==>
              var dealt := s.threads[t].dealt;
              && Begun(steps, t) == s.threads[t].given == Datagrams(dealt) + s.threads[t].todo
              && forall a, b :: 0 <= a < b < |dealt| ==> dealt[a].ticket < dealt[b].ticket
    ensures OrderOk(states[|steps|], q, i, j)
  {
    EveryRunKeepsInvariant(states, steps, |steps|);
    assert ThreadOk(states[|steps|], t) && OrderOk(states[|steps|], q, i, j);
    if t < |states[|steps|].threads| {
      GivenIsBegun(states, steps, |steps|, t);
      assert steps[..|steps|] == steps;
    }
  }

  /** Up to the tickets that are held or lost, the queues' loads never differ by more than one. */
  lemma LoadsBalanced(states: seq<State>, steps: seq<Step>, q: nat, q': nat)
    requires Run(states, steps) && q < |states[|steps|].queues| && q' < |states[|steps|].queues|
    ensures var s := states[|steps|]; var n := |s.queues|;
            |s.queues[q]| + Missing(s.fates, n, q) <= |s.queues[q']| + Missing(s.fates, n, q') + 1
  {
    EveryRunKeepsInvariant(states, steps, |steps|);
    var s := states[|steps|];
    assert SizeOk(s, q) && SizeOk(s, q');
    ShareBalanced(seq(|s.fates|, _ => Attempt.Written([])), 1, |s.queues|, q);
    ShareBalanced(seq(|s.fates|, _ => Attempt.Written([])), 1, |s.queues|, q');
  }

  // ----- order between threads -----

  /** Thread u holds the smaller ticket of the queue that t is about to write to. */
  predicate Overtakes(s: State, t: nat, u: nat) {
    && Holds(s, t) && Holds(s, u) && s.threads[u].ticket < s.threads[t].ticket
    && QueueOf(s, s.threads[u].ticket) == QueueOf(s, s.threads[t].ticket)
  }

  ghost predicate InOrder(s: State, q: nat, i: nat, j: nat) {
    q < |s.queues| && i < j < |s.queues[q]| ==> s.queues[q][i].ticket < s.queues[q][j].ticket
  }

  /** Each queue has its datagrams in the order of their tickets. */
  ghost predicate Ascending(s: State) {
    forall q, i, j :: InOrder(s, q, i, j)
  }

  /** Ticket k has led to a datagram in its queue. */
  ghost predicate IsPlaced(s: State, k: nat) {
    0 < k <= |s.fates| && s.fates[k - 1].Placed?
  }

  /** The m-th step overtakes thread u, whose own write, by the end of the run, has succeeded. */
  ghost predicate LosesTurn(states: seq<State>, steps: seq<Step>, m: nat, u: nat) {
    && m < |steps| && |states| == |steps| + 1 && steps[m].Write? && Overtakes(states[m], steps[m].t, u)
    && IsPlaced(states[|steps|], states[m].threads[u].ticket)
  }

  /** What is in a queue stays there, and what has become of a ticket. */
  ghost predicate Extends(s: State, s': State) {
    && |s'.queues| == |s.queues| && |s.fates| <= |s'.fates|
    && (forall q :: 0 <= q < |s.queues| ==> s.queues[q] <= s'.queues[q])
    && forall k :: 0 <= k < |s.fates| && !s.fates[k].Held? ==> s'.fates[k] == s.fates[k]
  }

  lemma StepExtends(s: State, step: Step)
    requires Invariant(s) && Enabled(s, step)
    ensures Extends(s, Apply(s, step))
  {
    assert ThreadOk(s, step.t);
  }

  lemma {:induction false} RunExtends(states: seq<State>, steps: seq<Step>, m: nat, k: nat)
    requires Run(states, steps) && m <= k < |states|
    ensures Extends(states[m], states[k])
  {
    hide Invariant, Apply;
    if m < k {
      RunExtends(states, steps, m, k - 1);
      EveryRunKeepsInvariant(states, steps, k - 1);
      assert Follows(states, steps, k - 1);
      StepExtends(states[k - 1], steps[k - 1]);
    }
  }

  /** Thread u, unless its write comes to nothing, is still to write behind all that is in its queue. */
  ghost predicate Behind(s: State, final: State, u: nat, j: nat) {
    Holds(s, u) && IsPlaced(final, s.threads[u].ticket) ==>
      var q := s.queues[QueueOf(s, s.threads[u].ticket)];
      j < |q| ==> q[j].ticket < s.threads[u].ticket
  }

  ghost predicate OnTime(s: State, final: State) {
    Ascending(s) && forall u, j :: Behind(s, final, u, j)
  }

  lemma WriteOnTime(s: State, t: nat, final: State)
    requires Invariant(s) && OnTime(s, final) && Enabled(s, Write(t)) && Extends(Apply(s, Write(t)), final)
    requires forall u: nat :: Overtakes(s, t, u) ==> !IsPlaced(final, s.threads[u].ticket)
    ensures OnTime(Apply(s, Write(t)), final)
  {
    var s' := Apply(s, Write(t));
    var k := s.threads[t].ticket;
    assert ThreadOk(s, t) && s'.fates[k - 1].Placed? && IsPlaced(final, k);
    forall q, i, j ensures InOrder(s', q, i, j) { assert InOrder(s, q, i, j) && Behind(s, final, t, i); }
    forall u, j ensures Behind(s', final, u, j) { assert Behind(s, final, u, j) && ThreadOk(s, u); }
  }

  /** Order by ticket is kept between threads exactly if every thread that is overtaken comes to nothing. */
  lemma OrderKeptExactly(states: seq<State>, steps: seq<Step>)
    requires Run(states, steps)
    ensures Ascending(states[|steps|]) <==> !exists m, u :: LosesTurn(states, steps, m, u)
  {
    if m, u :| LosesTurn(states, steps, m, u) {
      OvertakingShows(states, steps, m, u);
    } else {
      AlwaysOnTime(states, steps, |steps|);
    }
  }

  lemma {:induction false} AlwaysOnTime(states: seq<State>, steps: seq<Step>, k: nat)
    requires Run(states, steps) && k < |states| && forall m, u :: !LosesTurn(states, steps, m, u)
    ensures OnTime(states[k], states[|steps|])
  {
    hide Invariant, Apply, Enabled, Extends, OnTime;
    var final := states[|steps|];
    if k == 0 {
      OnTimeAtStart(states[0], final);
    } else {
      AlwaysOnTime(states, steps, k - 1);
      EveryRunKeepsInvariant(states, steps, k - 1);
      RunExtends(states, steps, k, |steps|);
      assert Follows(states, steps, k - 1);
      var s, step := states[k - 1], steps[k - 1];
      if step.Write? {
        forall u: nat | Overtakes(s, step.t, u) ensures !IsPlaced(final, s.threads[u].ticket) {
          assert !LosesTurn(states, steps, k - 1, u);
        }
        WriteOnTime(s, step.t, final);
      } else {
        OthersOnTime(s, step, final);
      }
    }
  }

  lemma OnTimeAtStart(s: State, final: State)
    requires Initial(s)
    ensures OnTime(s, final)
  {
    forall u: nat, j: nat ensures Behind(s, final, u, j) {
      assert u < |s.threads| ==> s.threads[u] == Thread([], 0, false, [], []);
    }
  }

  lemma OthersOnTime(s: State, step: Step, final: State)
    requires Invariant(s) && OnTime(s, final) && Enabled(s, step) && !step.Write?
    ensures OnTime(Apply(s, step), final)
  {
    var s' := Apply(s, step);
    forall q, i, j ensures InOrder(s', q, i, j) { assert InOrder(s, q, i, j); }
    forall u: nat, j: nat ensures Behind(s', final, u, j) {
      assert Behind(s, final, u, j) && ThreadOk(s, u);
      if step.Draw? && u == step.t {
        assert EntryOk(s, QueueOf(s, |s.fates| + 1), j);
      }
    }
  }

  /** A thread that was overtaken and whose write has succeeded stands behind a larger ticket. */
  lemma OvertakingShows(states: seq<State>, steps: seq<Step>, m: nat, u: nat)
    requires Run(states, steps) && LosesTurn(states, steps, m, u)
    ensures !Ascending(states[|steps|])
  {
    var s, t, s', final := states[m], steps[m].t, states[m + 1], states[|steps|];
    assert Follows(states, steps, m);
    EveryRunKeepsInvariant(states, steps, m);
    EveryRunKeepsInvariant(states, steps, m + 1);
    EveryRunKeepsInvariant(states, steps, |steps|);
    RunExtends(states, steps, m + 1, |steps|);
    var k := s.threads[u].ticket;
    var q, p, j := QueueOf(s, k), |s.queues[QueueOf(s, k)]|, final.fates[k - 1].index;
    assert FateOk(final, k - 1) && ThreadOk(s, u) && ThreadOk(s, t);
    assert final.queues[q][j].ticket == k && final.queues[q][p].ticket == s.threads[t].ticket;
    assert s'.fates[k - 1].Held?;
    assert EntryOk(s', q, j) && j > p;
    assert !InOrder(final, q, p, j);
  }

  /** So a run in which nobody writes while another holds a smaller ticket of the same queue keeps order. */
  lemma PatientRunsKeepOrder(states: seq<State>, steps: seq<Step>)
    requires Run(states, steps)
    requires forall m, u :: 0 <= m < |steps| && steps[m].Write? ==> !Overtakes(states[m], steps[m].t, u)
    ensures Ascending(states[|steps|])
  {
    OrderKeptExactly(states, steps);
  }

  /** One socket thread alone always keeps order. */
  lemma OneThreadKeepsOrder(states: seq<State>, steps: seq<Step>)
    requires Run(states, steps) && |states[0].threads| <= 1
    ensures Ascending(states[|steps|])
  {
    forall m: nat, u: nat | m < |steps| && steps[m].Write? ensures !Overtakes(states[m], steps[m].t, u) {
      SameThreads(states, steps, m);
    }
    PatientRunsKeepOrder(states, steps);
  }

  lemma {:induction false} SameThreads(states: seq<State>, steps: seq<Step>, k: nat)
    requires Run(states, steps) && k < |states|
    ensures |states[k].threads| == |states[0].threads|
  {
    if k > 0 {
      SameThreads(states, steps, k - 1);
      assert Follows(states, steps, k - 1);
    }
  }

  /** And whenever a thread could be overtaken, order can be lost: both writes are enabled, one after the
      other, and leave the larger ticket before the smaller. */
  lemma OvertakingSpoilsOrder(s: State, t: nat, u: nat)
    requires Invariant(s) && Overtakes(s, t, u) && s.threads[t].todo[0] != [] && s.threads[u].todo[0] != []
    ensures Enabled(s, Write(t)) && Enabled(Apply(s, Write(t)), Write(u))
    ensures !Ascending(Apply(Apply(s, Write(t)), Write(u)))
  {
    var s1 := Apply(s, Write(t));
    var s2 := Apply(s1, Write(u));
    var q := QueueOf(s, s.threads[t].ticket);
    assert s2.queues[q] == s.queues[q] + [s1.queues[q][|s.queues[q]|]] + [s2.queues[q][|s.queues[q]| + 1]];
    assert !InOrder(s2, q, |s.queues[q]|, |s.queues[q]| + 1);
  }

  /** It does come about: here the second datagram overtakes the first. */
  lemma TicketsOvertake(d: Datagram, e: Datagram) returns (states: seq<State>, steps: seq<Step>)
    requires d != [] && e != []
    ensures Run(states, steps) && states[|steps|].queues == [[Entry(2, 1, e), Entry(1, 0, d)]]
  {
    var s0 := State([Thread([], 0, false, [], []), Thread([], 0, false, [], [])], [[]], []);
    steps := [Begin(0, [d]), Begin(1, [e]), Draw(0), Draw(1), Write(1), Write(0)];
    var s1 := Apply(s0, steps[0]);
    var s2 := Apply(s1, steps[1]);
    var s3 := Apply(s2, steps[2]);
    var s4 := Apply(s3, steps[3]);
    var s5 := Apply(s4, steps[4]);
    var s6 := Apply(s5, steps[5]);
    states := [s0, s1, s2, s3, s4, s5, s6];
    assert s6.queues[0] == [Entry(2, 1, e), Entry(1, 0, d)];
  }
}
