/** Writing the datagrams of received frames back to the queues of the tunnel, in turn. */
module Dispatch {
  import opened Bytes
  import opened Lists
  import opened FrameFormat
  import opened FrameReader

  /** What became of a ticket: a datagram was written to its queue, or, for a size of zero or because the
      device refused it, nothing. */
  datatype Attempt = Written(datagram: Datagram) | Failed

  function Writes(datagrams: seq<Datagram>): seq<Attempt> {
    seq(|datagrams|, i requires 0 <= i < |datagrams| => Written(datagrams[i]))
  }

  ghost predicate AllWritten(attempts: seq<Attempt>) {
    forall k :: 0 <= k < |attempts| ==> attempts[k].Written?
  }

  /** Of attempts that draw the tickets first, first + 1, ..., what queue `i` of `n` gets. */
  function Share(attempts: seq<Attempt>, first: nat, n: nat, i: nat): seq<Datagram>
    requires n > 0
  {
    if attempts == [] then []
    else (if first % n == i && attempts[0].Written? then [attempts[0].datagram] else [])
         + Share(attempts[1..], first + 1, n, i)
  }

  lemma {:induction false} ShareAppend(a: seq<Attempt>, b: seq<Attempt>, first: nat, n: nat, i: nat)
    requires n > 0
    ensures Share(a + b, first, n, i) == Share(a, first, n, i) + Share(b, first + |a|, n, i)
  {
    if a == [] {
      assert a + b == b;
    } else {
      ShareAppend(a[1..], b, first + 1, n, i);
      assert (a + b)[1..] == a[1..] + b;
      Associative(if first % n == i && a[0].Written? then [a[0].datagram] else [],
                  Share(a[1..], first + 1, n, i), Share(b, first + |a|, n, i));
    }
  }

  /** Where the datagram with ticket first + k ends up: as number k / n of its queue. */
  lemma {:induction false} ShareAt(attempts: seq<Attempt>, first: nat, n: nat, k: nat)
    requires n > 0 && k < |attempts| && AllWritten(attempts)
    ensures var share := Share(attempts, first, n, (first + k) % n);
            k / n < |share| && share[k / n] == attempts[k].datagram
    decreases k
  {
    if k < n {
      SkipOthers(attempts, first, n, k);
    } else {
      WrapAround(first, k, n);
      ShareAt(attempts[n..], first + n, n, k - n);
      LaterTurn(attempts, first, n, k, (first + k) % n, k / n);
    }
  }

  /** One full turn gives each queue exactly one datagram. */
  lemma {:induction false} LaterTurn(attempts: seq<Attempt>, first: nat, n: nat, k: nat, i: nat, q: nat)
    requires 0 < n <= k < |attempts| && AllWritten(attempts) && i < n && q > 0
    requires var share := Share(attempts[n..], first + n, n, i); q - 1 < |share| && share[q - 1] == attempts[k].datagram
    ensures var share := Share(attempts, first, n, i); q < |share| && share[q] == attempts[k].datagram
  {
    OneTurn(attempts[..n], first, n, i);
    assert attempts == attempts[..n] + attempts[n..];
    ShareAppend(attempts[..n], attempts[n..], first, n, i);
  }

  lemma WrapAround(first: nat, k: nat, n: nat)
    requires n > 0 && k >= n
    ensures (first + n + (k - n)) % n == (first + k) % n && (k - n) / n == k / n - 1
  {
    Shift(k - n, n);
  }

  lemma Shift(a: nat, n: nat)
    requires n > 0
    ensures (a + n) % n == a % n && (a + n) / n == a / n + 1
  {
    var q, r := a / n, a % n;
    assert a + n == (q + 1) * n + r;
    Divide(a + n, q + 1, r, n);
  }

  /** Within the first turn, queue (first + k) mod n gets nothing before ticket first + k. */
  lemma {:induction false} SkipOthers(attempts: seq<Attempt>, first: nat, n: nat, k: nat)
    requires n > 0 && k < n && k < |attempts| && AllWritten(attempts)
    ensures var share := Share(attempts, first, n, (first + k) % n);
            share != [] && share[0] == attempts[k].datagram && k / n == 0
    decreases k
  {
    Divide(k, 0, k, n);
    if k > 0 {
      DistinctResidues(first, first + k, n);
      SkipOthers(attempts[1..], first + 1, n, k - 1);
    }
  }

  lemma DistinctResidues(a: nat, b: nat, n: nat)
    requires n > 0 && a < b < a + n
    ensures a % n != b % n
  {
    MultipleBounds(b / n - a / n, n);
    assert (b / n - a / n) * n == (b - b % n) - (a - a % n);
  }

  /** No queue gets two datagrams within one turn. */
  lemma {:induction false} AtMostOne(attempts: seq<Attempt>, first: nat, n: nat, i: nat)
    requires n > 0 && i < n && |attempts| <= n
    ensures |Share(attempts, first, n, i)| <= 1
    ensures (forall t :: first <= t < first + |attempts| ==> t % n != i) ==> Share(attempts, first, n, i) == []
    decreases |attempts|
  {
    if attempts != [] {
      AtMostOne(attempts[1..], first + 1, n, i);
      if first % n == i {
        forall t | first + 1 <= t < first + |attempts|
          ensures t % n != i
        {
          DistinctResidues(first, t, n);
        }
      }
    }
  }

  lemma {:induction false} OneTurn(attempts: seq<Attempt>, first: nat, n: nat, i: nat)
    requires n > 0 && i < n && |attempts| == n && AllWritten(attempts)
    ensures |Share(attempts, first, n, i)| == 1
  {
    AtMostOne(attempts, first, n, i);
    var k := TicketInTurn(first, n, i);
    SkipOthers(attempts, first, n, k);
  }

  lemma TicketInTurn(first: nat, n: nat, i: nat) returns (k: nat)
    requires n > 0 && i < n
    ensures k < n && (first + k) % n == i
  {
    var r := first % n;
    if r <= i {
      k := i - r;
      Divide(first + k, first / n, i, n);
    } else {
      k := i + n - r;
      assert first + k == (first / n + 1) * n + i;
      Divide(first + k, first / n + 1, i, n);
    }
  }

  /** The queues' loads never differ by more than one. */
  lemma {:induction false} ShareBalanced(attempts: seq<Attempt>, first: nat, n: nat, i: nat)
    requires n > 0 && i < n && AllWritten(attempts)
    ensures |attempts| / n <= |Share(attempts, first, n, i)| <= |attempts| / n + 1
    ensures |attempts| % n == 0 ==> |Share(attempts, first, n, i)| == |attempts| / n
    decreases |attempts|
  {
    if |attempts| < n {
      Divide(|attempts|, 0, |attempts|, n);
      AtMostOne(attempts, first, n, i);
    } else {
      OneTurn(attempts[..n], first, n, i);
      assert attempts == attempts[..n] + attempts[n..];
      ShareAppend(attempts[..n], attempts[n..], first, n, i);
      ShareBalanced(attempts[n..], first + n, n, i);
      Shift(|attempts| - n, n);
    }
  }

  function NumWritten(attempts: seq<Attempt>): nat {
    if attempts == [] then 0 else (if attempts[0].Written? then 1 else 0) + NumWritten(attempts[1..])
  }

  /** How many datagrams queues 0 .. m - 1 got together. */
  function SharesTotal(attempts: seq<Attempt>, first: nat, n: nat, m: nat): nat
    requires n > 0
  {
    if m == 0 then 0 else SharesTotal(attempts, first, n, m - 1) + |Share(attempts, first, n, m - 1)|
  }

  lemma {:induction false} SharesTotalStep(attempts: seq<Attempt>, first: nat, n: nat, m: nat)
    requires n > 0 && attempts != []
    ensures SharesTotal(attempts, first, n, m) ==
            SharesTotal(attempts[1..], first + 1, n, m) + if first % n < m && attempts[0].Written? then 1 else 0
  {
    if m > 0 {
      SharesTotalStep(attempts, first, n, m - 1);
    }
  }

  /** Nothing is lost and nothing is dealt twice: the queues together got as many as were written. */
  lemma {:induction false} SharesComplete(attempts: seq<Attempt>, first: nat, n: nat)
    requires n > 0
    ensures SharesTotal(attempts, first, n, n) == NumWritten(attempts)
  {
    if attempts == [] {
      NoShares(first, n, n);
    } else {
      SharesComplete(attempts[1..], first + 1, n);
      SharesTotalStep(attempts, first, n, n);
    }
  }

  lemma {:induction false} NoShares(first: nat, n: nat, m: nat)
    requires n > 0
    ensures SharesTotal([], first, n, m) == 0
  {
    if m > 0 {
      NoShares(first, n, m - 1);
    }
  }

  // ----- what one frame amounts to -----

  predicate Fits(bytes: seq<byte>, size: nat) {
    size <= |bytes| && (Check(bytes[..size]) == Accepted ==> DeclaredSize(bytes[..size]) <= |bytes|)
  }

  /** The frame is accepted and long enough for its header. */
  predicate HasBody(bytes: seq<byte>, size: nat)
    requires Fits(bytes, size)
  {
    Check(bytes[..size]) == Accepted && HEADER_SIZE <= DeclaredSize(bytes[..size])
  }

  /** The complete records of the frame in a buffer, and what is left over behind them. */
  function Records(bytes: seq<byte>, size: nat): Split
    requires Fits(bytes, size)
  {
    if HasBody(bytes, size) then SplitBody(bytes[HEADER_SIZE..DeclaredSize(bytes[..size])]) else Split([], [])
  }

  /** The datagrams before the first empty one. */
  function BeforeEmpty(datagrams: seq<Datagram>): seq<Datagram> {
    if datagrams == [] || datagrams[0] == [] then [] else [datagrams[0]] + BeforeEmpty(datagrams[1..])
  }

  ghost predicate NoneEmpty(datagrams: seq<Datagram>) {
    forall i :: 0 <= i < |datagrams| ==> datagrams[i] != []
  }

  lemma {:induction false} BeforeEmptyIsAll(datagrams: seq<Datagram>)
    ensures BeforeEmpty(datagrams) == datagrams <==> NoneEmpty(datagrams)
  {
    if datagrams != [] && datagrams[0] != [] {
      BeforeEmptyIsAll(datagrams[1..]);
      assert datagrams == [datagrams[0]] + datagrams[1..];
      assert NoneEmpty(datagrams) ==> forall i :: 0 <= i < |datagrams[1..]| ==> datagrams[1..][i] == datagrams[i + 1];
      assert NoneEmpty(datagrams[1..]) ==> forall i :: 1 <= i < |datagrams| ==> datagrams[i] == datagrams[1..][i - 1];
    }
  }

  lemma {:induction false} BeforeEmptyAppend(front: seq<Datagram>, back: seq<Datagram>)
    requires NoneEmpty(front)
    ensures BeforeEmpty(front + back) == front + BeforeEmpty(back)
  {
    if front == [] {
      assert front + back == back;
    } else {
      var first, more := front[0], front[1..];
      assert forall i :: 0 <= i < |more| ==> more[i] == front[i + 1];
      BeforeEmptyAppend(more, back);
      assert (front + back)[1..] == more + back && front == [first] + more;
      Associative([first], more, BeforeEmpty(back));
    }
  }

  /** The size in the separator when `rest` is left of the frame. If only its first byte lies in the frame,
      the second is the byte that follows the frame in the buffer or, at its end, in memory. */
  function SizeAt(bytes: seq<byte>, end: nat, rest: seq<byte>, beyond: byte): nat
    requires end <= |bytes| && rest != []
  {
    Word(rest[0], if |rest| >= SEPARATOR_SIZE then rest[1] else if end < |bytes| then bytes[end] else beyond)
  }

  /** The bytes written then, as far as they lie in the buffer. */
  function DataAt(bytes: seq<byte>, end: nat, rest: seq<byte>, beyond: byte): Datagram
    requires end <= |bytes| && rest != [] && |rest| <= end
  {
    var first := end - |rest| + SEPARATOR_SIZE;
    var last := first + SizeAt(bytes, end, rest, beyond);
    if last <= |bytes| then bytes[first..last] else if first <= |bytes| then bytes[first..] else []
  }

  function AttemptAt(bytes: seq<byte>, end: nat, rest: seq<byte>, beyond: byte): Attempt
    requires end <= |bytes| && rest != [] && |rest| <= end
  {
    if SizeAt(bytes, end, rest, beyond) > 0 then Written(DataAt(bytes, end, rest, beyond)) else Failed
  }

  /** Dealing out the frame completes, if the device takes all of it. */
  ghost predicate Dealable(bytes: seq<byte>, size: nat)
    requires Fits(bytes, size)
  {
    HasBody(bytes, size) && Records(bytes, size).rest == [] && NoneEmpty(Records(bytes, size).records)
  }

  /** What is found behind the records, all of them written, is written as if it were one. */
  ghost predicate Overruns(bytes: seq<byte>, size: nat, beyond: byte)
    requires Fits(bytes, size)
  {
    && HasBody(bytes, size) && Records(bytes, size).rest != [] && NoneEmpty(Records(bytes, size).records)
    && SizeAt(bytes, DeclaredSize(bytes[..size]), Records(bytes, size).rest, beyond) > 0
  }

  /** The first `patience` of them, or all. */
  function Upto(datagrams: seq<Datagram>, patience: nat): seq<Datagram> {
    if patience < |datagrams| then datagrams[..patience] else datagrams
  }

  /** Dealing out the frame completes when the device takes `patience` datagrams before it refuses one. */
  ghost predicate Completes(bytes: seq<byte>, size: nat, patience: nat)
    requires Fits(bytes, size)
  {
    Dealable(bytes, size) && |Records(bytes, size).records| <= patience
  }

  /** The attempt that ended dealing, if it was not completed but begun. */
  ghost predicate Ends(last: seq<Attempt>, bytes: seq<byte>, size: nat, beyond: byte, patience: nat)
    requires Fits(bytes, size)
  {
    && (last != [] <==> HasBody(bytes, size) && !Completes(bytes, size, patience)) && |last| <= 1
    && (last != [] ==>
          && (last[0].Written? <==> Overruns(bytes, size, beyond) && |Records(bytes, size).records| < patience)
          && (last[0].Written? ==>
                var rest, end := Records(bytes, size).rest, DeclaredSize(bytes[..size]);
                |rest| <= end && last[0].datagram == DataAt(bytes, end, rest, beyond)))
  }

  /** Each queue got its share of the attempts, behind what it had. */
  ghost predicate Dealt(before: seq<seq<Datagram>>, after: seq<seq<Datagram>>, attempts: seq<Attempt>, first: nat) {
    && |before| == |after| > 0
    && forall i :: 0 <= i < |before| ==> after[i] == before[i] + Share(attempts, first, |before|, i)
  }

  class TunnelProducerConsumer {
    var queues: seq<seq<Datagram>>  // what was written to each queue of the tunnel
    var roundRobin: nat             // the last ticket drawn
    var patience: nat               // how many writes the device takes before it refuses one

    constructor (n: nat, patience: nat)
      requires n > 0
      ensures |queues| == n && roundRobin == 0 && forall i :: 0 <= i < n ==> queues[i] == []
      ensures this.patience == patience
    {
      queues := seq(n, _ => []);
      this.roundRobin, this.patience := 0, patience;
    }

    /** Draws a ticket and writes to its queue; writing zero bytes counts as a closed descriptor. After a
        failure nothing is known about how the device goes on. */
    method WriteToNext(size: nat, d: Datagram) returns (ok: bool)
      requires |queues| > 0
      modifies this
      ensures ok <==> size > 0 && old(patience) > 0
      ensures ok ==> patience == old(patience) - 1
      ensures roundRobin == old(roundRobin) + 1 && |queues| == old(|queues|)
      ensures forall i :: 0 <= i < |queues| ==>
                queues[i] == old(queues[i]) + if ok && roundRobin % |queues| == i then [d] else []
    {
      roundRobin := roundRobin + 1;
      if size == 0 || patience == 0 {
        patience := *;
        return false;
      }
      patience := patience - 1;
      var idx := roundRobin % |queues|;
      queues := queues[idx := queues[idx] + [d]];
      return true;
    }

    /** Deals out the datagrams of one frame: the complete records up to the first empty one, or to the first
        that the device refuses. It completes exactly on an accepted header, a tiled body and no empty
        datagram, if the device takes them all. If it does not complete, but has begun, one more ticket is
        drawn: for a datagram refused, for an empty record, or for one that runs past the frame. The last is
        written, exactly if no record before it is empty, the size found at it is positive, and the device
        takes it too. */
    method OnTunnelFrameFromNext(buffer: array<byte>, size: nat, beyond: byte)
      returns (ok: bool, ghost good: seq<Datagram>, ghost last: seq<Attempt>)
      requires |queues| > 0
      requires Fits(buffer[..], size)
      modifies this
      ensures |queues| == old(|queues|)
      ensures Dealt(old(queues), queues, Writes(good) + last, old(roundRobin) + 1)
      ensures roundRobin == old(roundRobin) + |good| + |last|
      ensures good == Upto(BeforeEmpty(Records(buffer[..], size).records), old(patience))
      ensures ok <==> Completes(buffer[..], size, old(patience))
      ensures ok ==> patience == old(patience) - |good|
      ensures Ends(last, buffer[..], size, beyond, old(patience))
    {
      good, last := [], [];
      if Check(buffer[..size]) != Accepted {
        return false, good, last;
      }
      assert buffer[..][..size] == buffer[..size];
      var reader := new TunnelFrameReader(buffer, size, beyond);
      ok, good, last := Deal(reader, buffer[..], size);
    }

    method Deal(reader: TunnelFrameReader, ghost bytes: seq<byte>, ghost size: nat)
      returns (ok: bool, ghost good: seq<Datagram>, ghost last: seq<Attempt>)
      requires |queues| > 0 && reader.Valid() && reader.current == 0
      requires bytes == reader.buffer[..] && Fits(bytes, size)
      requires Check(bytes[..size]) == Accepted && DeclaredSize(bytes[..size]) == reader.end
      modifies this, reader`current
      ensures |queues| == old(|queues|)
      ensures Dealt(old(queues), queues, Writes(good) + last, old(roundRobin) + 1)
      ensures roundRobin == old(roundRobin) + |good| + |last|
      ensures good == Upto(BeforeEmpty(Records(bytes, size).records), old(patience))
      ensures ok <==> Completes(bytes, size, old(patience))
      ensures ok ==> patience == old(patience) - |good|
      ensures Ends(last, bytes, size, reader.beyond, old(patience))
    {
      good, last := [], [];
      var next := reader.Next();
      if next == BadlyFormatted {
        return false, good, last;
      }
      ok, good, last := DealRest(reader, next, bytes, size);
    }

    /** The loop, from the first datagram on. */
    method DealRest(reader: TunnelFrameReader, first: NextResult, ghost bytes: seq<byte>, ghost size: nat)
      returns (ok: bool, ghost good: seq<Datagram>, ghost last: seq<Attempt>)
      requires |queues| > 0 && reader.Valid() && reader.current == HEADER_SIZE <= reader.end
      requires first == if reader.current == reader.end then Done else More
      requires bytes == reader.buffer[..] && Midway(bytes, size, [], reader.Ahead())
      requires DeclaredSize(bytes[..size]) == reader.end
      modifies this, reader`current
      ensures |queues| == old(|queues|)
      ensures Dealt(old(queues), queues, Writes(good) + last, old(roundRobin) + 1)
      ensures roundRobin == old(roundRobin) + |good| + |last|
      ensures good == Upto(BeforeEmpty(Records(bytes, size).records), old(patience))
      ensures ok <==> Completes(bytes, size, old(patience))
      ensures ok ==> patience == old(patience) - |good|
      ensures Ends(last, bytes, size, reader.beyond, old(patience))
    {
      good, last := [], [];
      ghost var start, ticket := queues, roundRobin + 1;
      var next := first;
      ghost var ahead := reader.Ahead();
      while next == More
        invariant reader.Valid() && HEADER_SIZE <= reader.current <= reader.end && |queues| == |start|
        invariant next == if reader.current == reader.end then Done else More
        invariant ahead == reader.Ahead() && Midway(bytes, size, good, ahead)
        invariant roundRobin + 1 == ticket + |good| && Dealt(start, queues, Writes(good), ticket)
        invariant patience + |good| == old(patience)
        decreases reader.end - reader.current
      {
        ghost var attempt, left := *, patience;
        ok, next, attempt := DealOne(reader, start, Writes(good), ticket);
        if !ok {
          Stopped(bytes, size, reader.beyond, good, ahead, attempt, left);
          return false, good, [attempt];
        }
        OneFurther(bytes, size, good, ahead, attempt);
        good := good + [attempt.datagram];
        ahead := ahead[SEPARATOR_SIZE + FirstSize(ahead)..];
      }
      Finished(bytes, size, reader.beyond, good, ahead, patience);
      return true, good, last;
    }

    /** The datagram at the cursor is written and the cursor moved on. */
    method DealOne(reader: TunnelFrameReader, ghost start: seq<seq<Datagram>>, ghost attempts: seq<Attempt>,
                   ghost first: nat)
      returns (ok: bool, next: NextResult, ghost attempt: Attempt)
      requires |queues| > 0 && reader.Valid() && reader.AtDatagram()
      requires |start| == |queues| && roundRobin + 1 == first + |attempts| && Dealt(start, queues, attempts, first)
      modifies this, reader`current
      ensures reader.Valid() && |queues| == old(|queues|) && roundRobin == old(roundRobin) + 1
      ensures Dealt(start, queues, attempts + [attempt], first)
      ensures attempt == if old(patience) == 0 then Failed
                         else AttemptAt(reader.buffer[..], reader.end, old(reader.Ahead()), reader.beyond)
      ensures ok <==> old(StartsWithRecord(reader.Ahead()) && FirstSize(reader.Ahead()) > 0 && patience > 0)
      ensures ok ==>
                && patience == old(patience) - 1
                && attempt.Written? && attempt.datagram != []
                && attempt.datagram == old(reader.Ahead()[SEPARATOR_SIZE..SEPARATOR_SIZE + FirstSize(reader.Ahead())])
                && reader.current == old(reader.current + SEPARATOR_SIZE + FirstSize(reader.Ahead())) <= reader.end
                && next == if reader.current == reader.end then Done else More
    {
      var size, data := reader.Size(), reader.Data();
      assert size == SizeAt(reader.buffer[..], reader.end, reader.Ahead(), reader.beyond);
      assert data == DataAt(reader.buffer[..], reader.end, reader.Ahead(), reader.beyond);
      ghost var before := queues;
      next, attempt := BadlyFormatted, if size > 0 && patience > 0 then Written(data) else Failed;
      ok := WriteToNext(size, data);
      SharesExtended(start, before, queues, attempts, first, attempt);
      if ok {
        next := reader.Next();
        ok := next != BadlyFormatted;
      }
    }
  }

  /** Frame after frame is dealt as one long list of attempts would be; a frame that fails takes part with
      the ticket it lost. */
  lemma {:induction false} DealtInSequence(a: seq<seq<Datagram>>, b: seq<seq<Datagram>>, c: seq<seq<Datagram>>,
                                           x: seq<Attempt>, y: seq<Attempt>, first: nat)
    requires Dealt(a, b, x, first) && Dealt(b, c, y, first + |x|)
    ensures Dealt(a, c, x + y, first)
  {
    forall i | 0 <= i < |a|
      ensures c[i] == a[i] + Share(x + y, first, |a|, i)
    {
      ShareAppend(x, y, first, |a|, i);
      Associative(a[i], Share(x, first, |a|, i), Share(y, first + |x|, |a|, i));
    }
  }

  lemma {:induction false} SharesExtended(start: seq<seq<Datagram>>, before: seq<seq<Datagram>>,
                                          after: seq<seq<Datagram>>, attempts: seq<Attempt>, first: nat,
                                          attempt: Attempt)
    requires |start| == |before| == |after| > 0
    requires Dealt(start, before, attempts, first)
    requires forall i :: 0 <= i < |start| ==>
               var turn := attempt.Written? && (first + |attempts|) % |start| == i;
               after[i] == before[i] + if turn then [attempt.datagram] else []
    ensures Dealt(start, after, attempts + [attempt], first)
  {
    forall i | 0 <= i < |start|
      ensures after[i] == start[i] + Share(attempts + [attempt], first, |start|, i)
    {
      ShareAppend(attempts, [attempt], first, |start|, i);
      assert [attempt][1..] == [];
      Associative(start[i], Share(attempts, first, |start|, i), Share([attempt], first + |attempts|, |start|, i));
    }
  }

  /** The records in `good` have been dealt out and `ahead` is what is left of the frame. */
  ghost predicate Midway(bytes: seq<byte>, size: nat, good: seq<Datagram>, ahead: seq<byte>) {
    && Fits(bytes, size) && HasBody(bytes, size) && |ahead| <= DeclaredSize(bytes[..size]) && NoneEmpty(good)
    && Records(bytes, size) == Split(good + SplitBody(ahead).records, SplitBody(ahead).rest)
  }

  lemma {:induction false} OneFurther(bytes: seq<byte>, size: nat, good: seq<Datagram>, ahead: seq<byte>,
                                      attempt: Attempt)
    requires Midway(bytes, size, good, ahead) && StartsWithRecord(ahead) && FirstSize(ahead) > 0
    requires attempt == Written(ahead[SEPARATOR_SIZE..SEPARATOR_SIZE + FirstSize(ahead)])
    ensures Midway(bytes, size, good + [attempt.datagram], ahead[SEPARATOR_SIZE + FirstSize(ahead)..])
    ensures Writes(good + [attempt.datagram]) == Writes(good) + [attempt]
  {
    PastRecord(good, ahead);
  }

  lemma {:induction false} Finished(bytes: seq<byte>, size: nat, beyond: byte, good: seq<Datagram>, ahead: seq<byte>,
                                    left: nat)
    requires Midway(bytes, size, good, ahead) && ahead == []
    ensures good == Upto(BeforeEmpty(Records(bytes, size).records), |good| + left)
    ensures Completes(bytes, size, |good| + left) && Ends([], bytes, size, beyond, |good| + left)
    ensures Writes(good) + [] == Writes(good)
  {
    BeforeEmptyIsAll(good);
    assert good + [] == good;
  }

  /** What the record at which dealing stops says about the whole frame. */
  lemma {:induction false} Stopped(bytes: seq<byte>, size: nat, beyond: byte, good: seq<Datagram>, ahead: seq<byte>,
                                   attempt: Attempt, left: nat)
    requires Midway(bytes, size, good, ahead)
    requires ahead != [] && (left > 0 && StartsWithRecord(ahead) ==> FirstSize(ahead) == 0)
    requires attempt == if left == 0 then Failed else AttemptAt(bytes, DeclaredSize(bytes[..size]), ahead, beyond)
    ensures good == Upto(BeforeEmpty(Records(bytes, size).records), |good| + left)
    ensures !Completes(bytes, size, |good| + left)
    ensures Ends([attempt], bytes, size, beyond, |good| + left)
  {
    var records := Records(bytes, size).records;
    BeforeEmptyAppend(good, SplitBody(ahead).records);
    assert good + [] == good;
    if !StartsWithRecord(ahead) {
      assert SplitBody(ahead) == Split([], ahead);
      assert records == good;
    } else {
      assert SplitBody(ahead).records != [];
      if FirstSize(ahead) == 0 {
        assert SplitBody(ahead).records[0] == [];
        assert records[|good|] == [];
      }
    }
  }

  // ----- a frame that overruns -----

  /** An accepted frame of 161 bytes whose only record claims five bytes and has one. */
  function OverrunningFrame(x: byte): seq<byte> {
    MAGIC + [VERSION, 161, 0] + seq(HEADER_SIZE - HEADER_INFO_SIZE, _ => 0) + [5, 0, x]
  }

  lemma OverrunningFrameOverruns(x: byte, stale: seq<byte>, beyond: byte)
    requires |stale| >= 4
    ensures var bytes := OverrunningFrame(x) + stale;
            && Fits(bytes, 161) && IsFrame(bytes[..161]) && !Tiled(BodyOf(bytes[..161])) && Overruns(bytes, 161, beyond)
            && Records(bytes, 161) == Split([], [5, 0, x])
            && DataAt(bytes, 161, [5, 0, x], beyond) == [x] + stale[..4]
  {
    var bytes, frame := OverrunningFrame(x) + stale, OverrunningFrame(x);
    assert bytes[..161] == frame && Check(frame) == Accepted && DeclaredSize(frame) == 161;
    assert bytes[HEADER_SIZE..161] == [5, 0, x] == BodyOf(frame);
    assert SplitBody([5, 0, x]) == Split([], [5, 0, x]);
    assert bytes[160..165] == [x] + stale[..4];
  }

  /** The reader announces a datagram in it, and the dispatcher writes that byte together with four bytes
      that were left in the buffer by something else. */
  method DealOverrunningFrame(x: byte, beyond: byte)
    returns (next: NextResult, producer: TunnelProducerConsumer, ok: bool)
    ensures next == More && !ok && producer.queues == [[[x, 0xAA, 0xAA, 0xAA, 0xAA]]] && producer.roundRobin == 1
  {
    var buffer := new byte[MAX_FRAME_SIZE](i => if 0 <= i < 161 then OverrunningFrame(x)[i] else 0xAA);
    ghost var stale: seq<byte> := seq(MAX_FRAME_SIZE - 161, _ => 0xAA);
    assert buffer[..] == OverrunningFrame(x) + stale;
    OverrunningFrameOverruns(x, stale, beyond);
    assert buffer[..][..161] == buffer[..161];
    var reader := new TunnelFrameReader(buffer, 161, beyond);
    next := reader.Next();
    producer := new TunnelProducerConsumer(1, 1);
    ghost var good, last;
    ok, good, last := producer.OnTunnelFrameFromNext(buffer, 161, beyond);
    assert good == [] && last == [Written([x] + stale[..4])];
    assert Writes([]) + last == last && last[1..] == [];
    assert [x] + stale[..4] == [x, 0xAA, 0xAA, 0xAA, 0xAA];
    assert producer.queues[0] == [] + Share(last, 1, 1, 0) == [[x, 0xAA, 0xAA, 0xAA, 0xAA]];
  }
}
