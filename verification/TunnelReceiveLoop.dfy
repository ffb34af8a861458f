/** The loop of a queue thread: got datagrams, batches them into frames, hands the frames on. */
module TunnelReceiveLoop {
  import opened Bytes
  import opened Lists
  import opened FrameFormat
  import opened FrameWriter
  import opened Batching

  /** Reading took `got` from the datagrams on their way: the first ones, in order, none empty, and each whole
      unless it is longer than the MTU, when it is cut off there. */
  ghost predicate Taken(before: seq<Datagram>, after: seq<Datagram>, got: seq<Datagram>, mtu: nat) {
    && |got| <= |before| && after == before[|got|..]
    && forall i :: 0 <= i < |got| ==>
         got[i] != [] && got[i] <= before[i] && |got[i]| == if |before[i]| <= mtu then |before[i]| else mtu
  }

  lemma TakenTwice(a: seq<Datagram>, b: seq<Datagram>, c: seq<Datagram>, got: seq<Datagram>, more: seq<Datagram>,
                   mtu: nat)
    requires Taken(a, b, got, mtu) && Taken(b, c, more, mtu)
    ensures Taken(a, c, got + more, mtu)
  {
    forall i | |got| <= i < |got + more| ensures (got + more)[i] == more[i - |got|] && a[i] == b[i - |got|] {}
  }

  /** One queue of the tunnel device. `arrivals` are the datagrams that will arrive. */
  class TunnelQueue {
    var arrivals: seq<Datagram>
    ghost var polls: nat      // how often it was polled,
    ghost var announced: nat  // how often that found something to read,
    ghost var flushes: nat    // and how often a short wait timed out

    constructor (arrivals: seq<Datagram>)
      ensures this.arrivals == arrivals && polls == announced == flushes == 0
    {
      this.arrivals, this.polls, this.announced, this.flushes := arrivals, 0, 0, 0;
    }

    /** 1 if there is something to read, 0 on timeout; nothing relates the timing to the arrivals. The wait
        is `short` if it is for a fuller batch, long if it is for any data. */
    method Poll(short: bool) returns (res: int)
      modifies this`polls, this`announced, this`flushes
      ensures res == 0 || res == 1
      ensures polls == old(polls) + 1 && announced == old(announced) + res
      ensures flushes == old(flushes) + if short && res == 0 then 1 else 0
    {
      var ready: bool := *;
      res := if ready then 1 else 0;
      polls := polls + 1;
      announced := announced + if ready then 1 else 0;
      flushes := flushes + if short && !ready then 1 else 0;
    }

    /** A read would find nothing. */
    ghost predicate Silent(mtu: nat)
      reads this
    {
      arrivals == [] || arrivals[0] == [] || mtu == 0
    }

    /** Reads one datagram, cut off at `mtu` bytes. A read never yields nothing: it throws. */
    method Read(buffer: array<byte>, mtu: nat) returns (ok: bool, size: nat)
      requires mtu <= buffer.Length
      modifies this`arrivals, buffer
      ensures ok <==> !old(Silent(mtu))
      ensures ok ==> 0 < size <= mtu && Taken(old(arrivals), arrivals, [buffer[..size]], mtu)
      ensures !ok ==> size == 0 && arrivals == old(arrivals)
    {
      if arrivals == [] || arrivals[0] == [] || mtu == 0 {
        return false, 0;
      }
      var d := if |arrivals[0]| <= mtu then arrivals[0] else arrivals[0][..mtu];
      arrivals := arrivals[1..];
      Store(buffer, 0, d);
      assert buffer[..|d|] == buffer[0..|d|] == d;
      return true, |d|;
    }
  }

  datatype Response = Accepted | NotYetReady | Failed

  /** The rest of the chain, seen from the tunnel. */
  class NextPipe {
    ghost var accepted: seq<seq<byte>>  // the frames taken over, as they were handed in
    ghost var offers: nat               // how often a frame was handed in,
    ghost var rejections: nat           // and how often that failed for good

    constructor ()
      ensures accepted == [] && offers == rejections == 0
    {
      accepted, offers, rejections := [], 0, 0;
    }

    /** Whoever accepts a frame may write into its buffer; whoever is not ready leaves it alone. */
    method Invoke(buffer: array<byte>, size: nat) returns (r: Response)
      requires size <= buffer.Length
      modifies this, buffer
      ensures r == Response.Accepted ==> accepted == old(accepted) + [old(buffer[..size])]
      ensures r != Response.Accepted ==> accepted == old(accepted)
      ensures r == NotYetReady ==> buffer[..] == old(buffer[..])
      ensures offers == old(offers) + 1 && rejections == old(rejections) + if r == Failed then 1 else 0
    {
      offers := offers + 1;
      var choice: int := *;
      if choice == 0 {
        return NotYetReady;
      } else if choice == 1 {
        rejections := rejections + 1;
        return Failed;
      }
      accepted := accepted + [buffer[..size]];
      var scribble: seq<byte> :| |scribble| == size by {
        assert |buffer[..size]| == size;
      }
      Store(buffer, 0, scribble);
      return Response.Accepted;
    }
  }

  /** How one frame came to be closed, or why the loop ended. */
  datatype Fill = Full | TimedOut | Ended(reason: Ending)
  datatype Ending = Interrupted | ReadFailed | SendFailed | AssertionFailed

  /** In what state filling a frame can stop. */
  ghost predicate Closes(fill: Fill, written: Batch, carried: Batch) {
    match fill
    case Full => written != [] && FullBefore(written, carried)
    case TimedOut => written != [] && carried == []
    case Ended(reason) =>
      && reason != SendFailed
      && (written != [] ==> carried == [])
      && (reason == AssertionFailed ==> written == [] && |carried| == 1 && |carried[0]| > MAX_DATAGRAM)
  }

  /** The frames handed on carry these batches. */
  ghost predicate Carry(frames: seq<seq<byte>>, batches: seq<Batch>) {
    |frames| == |batches| && forall i :: 0 <= i < |frames| ==> CarriesAt(frames, batches, i)
  }

  ghost predicate CarriesAt(frames: seq<seq<byte>>, batches: seq<Batch>, i: nat)
    requires i < |frames| && i < |batches|
  {
    CarriesBatch(frames[i], batches[i])
  }

  ghost predicate CarriesBatch(frame: seq<byte>, batch: Batch) {
    IsFrame(frame) && Tiled(BodyOf(frame)) && DatagramsOf(frame) == batch && |frame| == HEADER_SIZE + TotalCost(batch)
  }

  /** Each batch marked full was closed only because its successor's first datagram did not fit. */
  ghost predicate FullOnes(batches: seq<Batch>, full: seq<bool>) {
    && |full| <= |batches|
    && forall i :: 0 <= i < |full| && full[i] ==> i + 1 < |batches| && FullBefore(batches[i], batches[i + 1])
  }

  /** A queue thread's books: all datagrams read, the frames handed on and the batches in them, the
      datagrams of the frame in hand, the one carried over, and which frames were closed as full. */
  datatype Account = Account(got: seq<Datagram>, frames: seq<seq<byte>>, batches: seq<Batch>, open: Batch,
                             carried: Batch, full: seq<bool>)

  /** Everything read is in the frames handed on, in the open frame, or carried over, in order. */
  ghost predicate Consistent(a: Account) {
    && a.got == Flatten(a.batches) + a.open + a.carried
    && Carry(a.frames, a.batches) && NoneEmpty(a.batches) && AllFit(a.batches) && TotalCost(a.open) <= CAPACITY
    && FullOnes(AllBatches(a), a.full)
  }

  /** One flag for each frame closed. */
  ghost predicate FullyFlagged(a: Account) {
    |a.batches| <= |a.full| <= |a.batches| + 1 && (a.open != [] && a.carried != [] ==> |a.full| == |a.batches| + 1)
  }

  /** An empty frame cannot take the datagram carried over. */
  ghost predicate Oversize(a: Account) {
    a.open == [] && |a.carried| == 1 && |a.carried[0]| > MAX_DATAGRAM
  }

  /** The frames used once what is open or carried over is sent too. */
  function AllBatches(a: Account): seq<Batch> {
    a.batches + Optional(a.open) + Optional(a.carried)
  }

  function Optional(batch: Batch): seq<Batch> {
    if batch == [] then [] else [batch]
  }

  ghost predicate Readable(datagrams: seq<Datagram>, mtu: nat) {
    forall d :: d in datagrams ==> 0 < |d| <= mtu
  }

  /** Short of the maximum by at most the MTU plus one. */
  predicate Large(frame: seq<byte>, mtu: nat) {
    |frame| + mtu + 1 >= MAX_FRAME_SIZE
  }

  function SmallOnes(frames: seq<seq<byte>>, mtu: nat): nat {
    if frames == [] then 0 else (if Large(frames[0], mtu) then 0 else 1) + SmallOnes(frames[1..], mtu)
  }

  /** What `flushes` timeouts cost at most: one frame each more than any split uses that fits, one more than
      the bound, and one that is not large. */
  ghost predicate Frugal(a: Account, flushes: int, mtu: nat) {
    && (forall other :: AllFit(other) && Flatten(other) == a.got ==> |AllBatches(a)| <= |other| + flushes)
    && |AllBatches(a)| <= 2 * (TotalCost(a.got) / (CAPACITY + 1)) + 1 + flushes
    && SmallOnes(a.frames, mtu) <= flushes
  }

  class QueueThread {
    const queue: TunnelQueue
    const next: NextPipe
    const mtu: nat
    const buffer: array<byte>
    const mtuBuffer: array<byte>
    var mtuBufferSize: nat
    var checks: nat  // how many more looks at the interruption flag find it unset

    ghost predicate Valid()
      reads this
    {
      buffer != mtuBuffer && buffer.Length == MAX_FRAME_SIZE && mtuBuffer.Length == mtu && mtuBufferSize <= mtu
    }

    /** The datagram carried over because the previous frame had no room for it. */
    ghost function Carried(): seq<Datagram>
      requires Valid()
      reads this, mtuBuffer
    {
      if mtuBufferSize == 0 then [] else [mtuBuffer[..mtuBufferSize]]
    }

    constructor (queue: TunnelQueue, next: NextPipe, mtu: nat, checks: nat)
      ensures Valid() && this.queue == queue && this.next == next && this.mtu == mtu
      ensures mtuBufferSize == 0 && fresh(buffer) && fresh(mtuBuffer)
    {
      this.queue, this.next, this.mtu, this.checks := queue, next, mtu, checks;
      this.buffer := new byte[MAX_FRAME_SIZE];
      this.mtuBuffer := new byte[mtu];
      this.mtuBufferSize := 0;
    }

    /** Looks still to come, and what earlier ones led to. A look that finds the flag unset is followed by a
        poll or an offer, or by taking up the datagram carried over. */
    ghost function Looks(): nat
      reads this, queue, next
    {
      checks + queue.polls + next.offers
    }

    /** What is known when the loop ends for this reason. */
    ghost predicate Told(reason: Ending)
      reads this, queue
    {
      (reason == Interrupted ==> checks == 0) && (reason == ReadFailed ==> queue.Silent(mtu))
    }

    /** One look at the flag; once it is set it is found set. */
    method LoadInterrupted() returns (interrupted: bool)
      modifies this`checks
      ensures !interrupted ==> checks == old(checks) - 1
      ensures interrupted ==> old(checks) == 0 == checks
    {
      if checks == 0 {
        return true;
      }
      checks := checks - 1;
      return false;
    }

    /** Waits until a datagram is there, or, once something is in the frame, until the wait times out. */
    method WaitForDatagram(numDatagramsWritten: nat) returns (interrupted: bool, res: int)
      requires Valid()
      modifies this`checks, queue`polls, queue`announced, queue`flushes
      ensures Valid()
      ensures interrupted ==> checks == 0
      ensures !interrupted ==> checks < old(checks)
      ensures !interrupted ==> res == 1 || (res == 0 && numDatagramsWritten > 0 && mtuBufferSize == 0)
      ensures queue.announced == old(queue.announced) + if interrupted || mtuBufferSize != 0 then 0 else res
      ensures queue.flushes == old(queue.flushes) + if interrupted || res == 1 then 0 else 1
      ensures Looks() == old(Looks()) - if interrupted || mtuBufferSize == 0 then 0 else 1
    {
      while true
        invariant checks <= old(checks) && Looks() == old(Looks())
        invariant queue.announced == old(queue.announced) && queue.flushes == old(queue.flushes)
        decreases checks
      {
        interrupted := LoadInterrupted();
        if interrupted {
          return true, 0;
        }
        if mtuBufferSize != 0 {
          return false, 1;
        }
        res := queue.Poll(numDatagramsWritten != 0);
        if res > 0 {
          return false, res;
        }
        if numDatagramsWritten != 0 {
          return false, res;
        }
      }
    }

    /** Makes sure that a datagram is in the MTU buffer. */
    method Fetch() returns (ok: bool, ghost more: seq<Datagram>)
      requires Valid()
      modifies this`mtuBufferSize, mtuBuffer, queue`arrivals
      ensures Valid() && Taken(old(queue.arrivals), queue.arrivals, more, mtu) && Carried() == old(Carried()) + more
      ensures |more| == (if ok && old(mtuBufferSize) == 0 then 1 else 0) && Readable(more, mtu)
      ensures ok ==> mtuBufferSize != 0
      ensures !ok ==> old(mtuBufferSize) == 0 == mtuBufferSize && queue.Silent(mtu)
    {
      more := [];
      if mtuBufferSize == 0 {
        var size;
        ok, size := queue.Read(mtuBuffer, mtu);
        mtuBufferSize := size;
        more := Carried();
        return ok, more;
      }
      return true, more;
    }

    /** Moves the datagram in the MTU buffer to the frame. */
    method CopyCarried(writer: TunnelFrameWriter)
      requires Valid() && writer.Valid() && writer.buffer == buffer
      requires writer.current == HEADER_SIZE + TotalCost(writer.written)
      requires 0 < mtuBufferSize <= writer.RemainingBytes()
      modifies this`mtuBufferSize, writer`current, writer`written, buffer
      ensures Valid() && writer.Valid() && writer.current == HEADER_SIZE + TotalCost(writer.written)
      ensures writer.written == old(writer.written) + old(Carried()) && Carried() == []
    {
      var d := mtuBuffer[..mtuBufferSize];
      CostOfOneMore(writer.written, d);
      writer.Append(d);
      mtuBufferSize := 0;
    }

    ghost predicate Filling(writer: TunnelFrameWriter)
      reads this, writer, buffer, writer.buffer, mtuBuffer
    {
      && Valid() && writer.Valid() && writer.buffer == buffer && writer.end == MAX_FRAME_SIZE
      && writer.current == HEADER_SIZE + TotalCost(writer.written)
      && (writer.written != [] ==> Carried() == [])
    }

    /** The datagram in the MTU buffer goes into the frame, or the frame is closed before it. */
    method MoveIfItFits(writer: TunnelFrameWriter, numDatagramsWritten: nat) returns (goOn: bool, fill: Fill)
      requires Valid() && writer.Valid() && writer.buffer == buffer && writer.end == MAX_FRAME_SIZE
      requires writer.current == HEADER_SIZE + TotalCost(writer.written)
      requires mtuBufferSize != 0 && numDatagramsWritten == |writer.written|
      modifies this`mtuBufferSize, writer`current, writer`written, buffer
      ensures Valid() && writer.Valid()
      ensures writer.written + Carried() == old(writer.written + Carried())
      ensures goOn ==> Filling(writer) && Carried() == [] && |writer.written| == numDatagramsWritten + 1
      ensures !goOn ==> (fill == Full || fill == Ended(AssertionFailed)) && Closes(fill, writer.written, Carried())
      ensures !goOn ==> writer.written == old(writer.written) && writer.current == old(writer.current)
    {
      assert TotalCost([]) == 0;
      hide EncodeBody, TotalCost;
      if mtuBufferSize > writer.RemainingBytes() {
        return false, if numDatagramsWritten == 0 then Ended(AssertionFailed) else Full;
      }
      CopyCarried(writer);
      return true, TimedOut;
    }

    /** There is something to take: reads, unless something is carried over, and moves the datagram to the
        frame if it fits. */
    method TakeWaiting(writer: TunnelFrameWriter, numDatagramsWritten: nat)
      returns (goOn: bool, fill: Fill, ghost more: seq<Datagram>)
      requires Filling(writer) && numDatagramsWritten == |writer.written|
      modifies this`mtuBufferSize, mtuBuffer, queue`arrivals, writer`current, writer`written, buffer
      ensures Valid() && writer.Valid()
      ensures Taken(old(queue.arrivals), queue.arrivals, more, mtu)
      ensures old(writer.written + Carried()) + more == writer.written + Carried()
      ensures goOn ==> Filling(writer) && Carried() == [] && |writer.written| == numDatagramsWritten + 1
      ensures !goOn ==> Closes(fill, writer.written, Carried()) && fill != TimedOut && fill != Ended(Interrupted)
      ensures !goOn ==> writer.written == old(writer.written) && writer.current == old(writer.current)
      ensures Readable(more, mtu) && (!goOn && fill == Ended(ReadFailed) ==> queue.Silent(mtu))
      ensures |more| == if old(mtuBufferSize) == 0 && (goOn || fill != Ended(ReadFailed)) then 1 else 0
      ensures !goOn && fill == Ended(ReadFailed) ==> old(mtuBufferSize) == 0
    {
      hide EncodeBody, TotalCost, Readable, Taken;
      var ok;
      ok, more := Fetch();
      Reassociate(writer.written, old(Carried()), more, writer.written, old(Carried()));
      if !ok {
        return false, Ended(ReadFailed), more;
      }
      goOn, fill := MoveIfItFits(writer, numDatagramsWritten);
    }

    /** One round of filling: waits, reads unless something is carried over, and moves the datagram
        to the frame if it fits. */
    method TakeOne(writer: TunnelFrameWriter, numDatagramsWritten: nat)
      returns (goOn: bool, fill: Fill, ghost more: seq<Datagram>)
      requires Filling(writer) && numDatagramsWritten == |writer.written|
      modifies this`mtuBufferSize, this`checks, mtuBuffer, queue, writer`current, writer`written, buffer
      ensures Valid() && writer.Valid()
      ensures Taken(old(queue.arrivals), queue.arrivals, more, mtu)
      ensures old(writer.written + Carried()) + more == writer.written + Carried()
      ensures goOn ==> Filling(writer) && Carried() == [] && |writer.written| == numDatagramsWritten + 1
      ensures goOn ==> checks < old(checks)
      ensures !goOn ==> Closes(fill, writer.written, Carried())
      ensures !goOn ==> writer.written == old(writer.written) && writer.current == old(writer.current)
      ensures !goOn && !fill.Ended? ==> checks < old(checks)
      ensures Readable(more, mtu) && (!goOn && fill.Ended? ==> Told(fill.reason))
      ensures Looks() <= old(Looks()) <= Looks() + |old(Carried())|
      ensures queue.announced == old(queue.announced) + |more| + if !goOn && fill == Ended(ReadFailed) then 1 else 0
      ensures queue.flushes == old(queue.flushes) + if !goOn && fill == TimedOut then 1 else 0
    {
      assert TotalCost([]) == 0;
      hide EncodeBody, TotalCost, FullBefore, Readable;
      more := [];
      var interrupted, res := WaitForDatagram(numDatagramsWritten);
      if interrupted {
        return false, Ended(Interrupted), more;
      }
      if res == 0 {
        return false, TimedOut, more;
      }
      goOn, fill, more := TakeWaiting(writer, numDatagramsWritten);
    }

    /** Fills one frame. Every datagram carried over or read is in the frame or carried over, in order;
        a frame is closed as full only when the datagram carried over would not have fitted. */
    method FillFrame(writer: TunnelFrameWriter) returns (fill: Fill, ghost got: seq<Datagram>)
      requires Filling(writer) && writer.written == []
      modifies this`mtuBufferSize, this`checks, mtuBuffer, queue, writer`current, writer`written, buffer
      ensures Valid() && writer.Valid() && writer.current == HEADER_SIZE + TotalCost(writer.written)
      ensures Taken(old(queue.arrivals), queue.arrivals, got, mtu)
      ensures old(Carried()) + got == writer.written + Carried()
      ensures Closes(fill, writer.written, Carried())
      ensures !fill.Ended? ==> checks < old(checks)
      ensures Readable(got, mtu) && (fill.Ended? ==> Told(fill.reason))
      ensures Looks() <= old(Looks()) <= Looks() + |old(Carried())|
      ensures queue.announced == old(queue.announced) + |got| + if fill == Ended(ReadFailed) then 1 else 0
      ensures queue.flushes == old(queue.flushes) + if fill == TimedOut then 1 else 0
    {
      got := [];
      var numDatagramsWritten := 0;
      var goOn := true;
      ghost var carried, looks := Carried(), checks;
      fill := TimedOut;
      while goOn
        invariant goOn ==> Filling(writer)
        invariant Valid() && writer.Valid() && writer.current == HEADER_SIZE + TotalCost(writer.written)
        invariant goOn ==> numDatagramsWritten == |writer.written|
        invariant Taken(old(queue.arrivals), queue.arrivals, got, mtu)
        invariant carried + got == writer.written + Carried()
        invariant !goOn ==> Closes(fill, writer.written, Carried())
        invariant goOn ==> checks <= looks
        invariant !goOn && !fill.Ended? ==> checks < looks
        invariant Readable(got, mtu) && (!goOn && fill.Ended? ==> Told(fill.reason))
        invariant Looks() <= old(Looks()) <= Looks() + |carried|
        invariant goOn && numDatagramsWritten == 0 ==> old(Looks()) == Looks() && Carried() == carried
        invariant goOn && numDatagramsWritten > 0 ==> Carried() == []
        invariant queue.announced == old(queue.announced) + |got| + if !goOn && fill == Ended(ReadFailed) then 1 else 0
        invariant queue.flushes == old(queue.flushes) + if !goOn && fill == TimedOut then 1 else 0
        decreases goOn, checks
      {
        ghost var more, left := [], queue.arrivals;
        goOn, fill, more := TakeOne(writer, numDatagramsWritten);
        Associative(carried, got, more);
        TakenTwice(old(queue.arrivals), left, queue.arrivals, got, more, mtu);
        got := got + more;
        numDatagramsWritten := numDatagramsWritten + 1;
      }
    }

    /** Offers a closed frame until it is taken over; it is the same frame at every attempt. */
    method HandOn(size: nat) returns (handed: bool, reason: Ending)
      requires Valid() && size <= buffer.Length
      modifies this`checks, next, buffer
      ensures Valid() && checks <= old(checks)
      ensures handed ==> next.accepted == old(next.accepted) + [old(buffer[..size])]
      ensures !handed ==> next.accepted == old(next.accepted) && (reason == Interrupted || reason == SendFailed)
      ensures Looks() == old(Looks()) && (!handed && reason == Interrupted ==> checks == 0)
      ensures next.rejections == old(next.rejections) + if !handed && reason == SendFailed then 1 else 0
    {
      ghost var frame := buffer[..];
      while true
        invariant buffer[..] == frame && next.accepted == old(next.accepted) && checks <= old(checks)
        invariant Looks() == old(Looks()) && next.rejections == old(next.rejections)
        decreases checks
      {
        var interrupted := LoadInterrupted();
        if interrupted {
          return false, Interrupted;
        }
        assert buffer[..size] == frame[..size];
        var r := next.Invoke(buffer, size);
        match r {
          case Accepted => return true, Interrupted;
          case NotYetReady =>
          case Failed => return false, SendFailed;
        }
      }
    }

    method CloseAndHandOn(writer: TunnelFrameWriter) returns (handed: bool, reason: Ending, ghost frame: seq<byte>)
      requires Valid() && writer.Valid() && writer.buffer == buffer && writer.end == MAX_FRAME_SIZE
      modifies this`checks, next, buffer
      ensures Valid() && checks <= old(checks)
      ensures CarriesBatch(frame, writer.written) && TotalCost(writer.written) <= CAPACITY
      ensures handed ==> next.accepted == old(next.accepted) + [frame]
      ensures !handed ==> next.accepted == old(next.accepted) && (reason == Interrupted || reason == SendFailed)
      ensures Looks() == old(Looks()) && (!handed && reason == Interrupted ==> checks == 0)
      ensures next.rejections == old(next.rejections) + if !handed && reason == SendFailed then 1 else 0
    {
      writer.Close();
      frame := buffer[..writer.current];
      handed, reason := HandOn(writer.current);
    }

    /** One frame: filled, closed and handed on, unless the loop ends on the way. `open` is what went
        into the frame, `closed` how it was closed, `frame` its bytes once handed on. */
    method OneFrame() returns (handed: bool, reason: Ending, ghost got: seq<Datagram>, ghost open: Batch,
                               ghost closed: seq<bool>, ghost frame: seq<byte>)
      requires Valid()
      modifies this`mtuBufferSize, this`checks, mtuBuffer, queue, next, buffer
      ensures Valid()
      ensures Taken(old(queue.arrivals), queue.arrivals, got, mtu) && old(Carried()) + got == open + Carried()
      ensures |closed| <= 1 && TotalCost(open) <= CAPACITY && (open != [] && Carried() != [] ==> closed != [])
      ensures closed != [] ==> open != [] && (closed[0] ==> FullBefore(open, Carried()))
      ensures handed ==> closed != [] && checks < old(checks) && CarriesBatch(frame, open)
      ensures handed ==> next.accepted == old(next.accepted) + [frame]
      ensures !handed ==> next.accepted == old(next.accepted)
      ensures !handed && reason == AssertionFailed ==> open == [] && |Carried()| == 1 && |Carried()[0]| > MAX_DATAGRAM
      ensures Readable(got, mtu) && (!handed ==> Told(reason))
      ensures Looks() <= old(Looks()) <= Looks() + |old(Carried())|
      ensures queue.announced == old(queue.announced) + |got| + if !handed && reason == ReadFailed then 1 else 0
      ensures queue.flushes == old(queue.flushes) + NotFull(closed)
      ensures next.rejections == old(next.rejections) + if !handed && reason == SendFailed then 1 else 0
    {
      var writer := new TunnelFrameWriter(buffer, MAX_FRAME_SIZE);
      var fill;
      fill, got := FillFrame(writer);
      open, closed, frame := writer.written, [], [];
      if fill.Ended? {
        return false, fill.reason, got, open, closed, frame;
      }
      closed := [fill == Full];
      handed, reason, frame := CloseAndHandOn(writer);
    }

    /** One frame, with the account of everything read so far brought up to date. */
    method OneMoreFrame(ghost before: Account)
      returns (handed: bool, reason: Ending, ghost now: Account, ghost more: seq<Datagram>, ghost taken: seq<seq<byte>>)
      requires Valid() && before.carried == Carried() && Consistent(before)
      requires before.open == [] && |before.full| == |before.batches|
      modifies this`mtuBufferSize, this`checks, mtuBuffer, queue, next, buffer
      ensures Valid() && now.carried == Carried() && Consistent(now)
      ensures Taken(old(queue.arrivals), queue.arrivals, more, mtu) && now.got == before.got + more
      ensures next.accepted == old(next.accepted) + taken && now.frames == before.frames + taken
      ensures handed ==> checks < old(checks) && now.open == [] && |now.full| == |now.batches|
      ensures !handed ==> FullyFlagged(now)
      ensures !handed && reason == AssertionFailed ==> Oversize(now)
      ensures Readable(more, mtu) && (!handed ==> Told(reason))
      ensures Looks() <= old(Looks()) <= Looks() + |before.carried|
      ensures queue.announced == old(queue.announced) + |more| + if !handed && reason == ReadFailed then 1 else 0
      ensures queue.flushes + NotFull(before.full) == old(queue.flushes) + NotFull(now.full)
      ensures next.rejections == old(next.rejections) + if !handed && reason == SendFailed then 1 else 0
      ensures |before.full| <= |now.full| && (handed ==> |now.full| == |before.full| + 1)
    {
      ghost var open, closed, frame;
      handed, reason, more, open, closed, frame := OneFrame();
      taken := if handed then [frame] else [];
      StillAccounted(before, more, open, Carried(), closed);
      NotFullAppend(before.full, closed);
      now := Account(before.got + more, before.frames, before.batches, open, Carried(), before.full + closed);
      if handed {
        HandedOn(now, frame);
        now := Account(now.got, now.frames + [frame], now.batches + [open], [], now.carried, now.full);
      }
    }

    /** The whole loop, until it ends by an exception: the flag is set, a read finds nothing, or a frame is
        refused for good. Every datagram announced is read, and none read is lost or reordered; no frame
        handed on is empty or too large; and timeouts apart no split uses fewer frames. The assertion that
        a datagram fits an empty frame fails only for one over 3936 bytes. */
    method Run() returns (reason: Ending, ghost account: Account)
      requires Valid() && mtuBufferSize == 0
      modifies this`mtuBufferSize, this`checks, mtuBuffer, queue, next, buffer
      ensures Valid() && account.carried == Carried()
      ensures Taken(old(queue.arrivals), queue.arrivals, account.got, mtu)
      ensures next.accepted == old(next.accepted) + account.frames
      ensures Consistent(account) && FullyFlagged(account)
      ensures reason == AssertionFailed ==> Oversize(account)
      ensures mtu <= MAX_DATAGRAM ==> reason != AssertionFailed
      ensures Readable(account.got, mtu) && Told(reason)
      ensures Looks() <= old(Looks()) <= Looks() + |account.full|
      ensures queue.announced == old(queue.announced) + |account.got| + if reason == ReadFailed then 1 else 0
      ensures next.rejections == old(next.rejections) + if reason == SendFailed then 1 else 0
      ensures queue.flushes == old(queue.flushes) + NotFull(account.full)
      ensures Frugal(account, queue.flushes - old(queue.flushes), mtu)
    {
      reason, account := Interrupted, Account([], [], [], [], [], []);
      NothingYet(account);
      assert Taken(queue.arrivals, queue.arrivals, [], mtu);
      hide Consistent, Frugal, FullyFlagged, NotFull, Readable, Oversize, Told, Taken;
      ghost var accepted := next.accepted;
      var handed := true;
      while handed
        invariant Valid() && account.carried == Carried() && Consistent(account)
        invariant Taken(old(queue.arrivals), queue.arrivals, account.got, mtu)
        invariant next.accepted == accepted + account.frames
        invariant handed ==> account.open == [] && |account.full| == |account.batches|
        invariant !handed ==> FullyFlagged(account)
        invariant !handed && reason == AssertionFailed ==> Oversize(account)
        invariant Readable(account.got, mtu) && (!handed ==> Told(reason))
        invariant Looks() <= old(Looks()) <= Looks() + |account.full| - if handed then |account.carried| else 0
        invariant queue.announced == old(queue.announced) + |account.got|
                                     + if !handed && reason == ReadFailed then 1 else 0
        invariant next.rejections == old(next.rejections) + if !handed && reason == SendFailed then 1 else 0
        invariant queue.flushes == old(queue.flushes) + NotFull(account.full)
        decreases handed, checks
      {
        ghost var more, taken;
        ghost var got, frames, left := account.got, account.frames, queue.arrivals;
        handed, reason, account, more, taken := OneMoreFrame(account);
        TakenTwice(old(queue.arrivals), left, queue.arrivals, got, more, mtu);
        Associative(accepted, frames, taken);
        ReadableAppend(got, more, mtu);
      }
      LoopIsFrugal(account, mtu);
      NeverOversize(account, mtu);
    }
  }

  lemma NothingYet(a: Account)
    requires a == Account([], [], [], [], [], [])
    ensures Consistent(a) && NotFull(a.full) == 0 && forall mtu :: Readable(a.got, mtu)
  {
  }

  lemma NeverOversize(a: Account, mtu: nat)
    requires Consistent(a) && Readable(a.got, mtu)
    ensures mtu <= MAX_DATAGRAM ==> !Oversize(a)
  {
    assert |a.carried| == 1 ==> a.carried[0] in a.got;
  }

  lemma ReadableAppend(a: seq<Datagram>, b: seq<Datagram>, mtu: nat)
    requires Readable(a, mtu) && Readable(b, mtu)
    ensures Readable(a + b, mtu)
  {
  }

  lemma {:induction false} CostOfOneMore(written: seq<Datagram>, d: Datagram)
    ensures TotalCost(written + [d]) == TotalCost(written) + Cost(d)
  {
    TotalCostAppend(written, [d]);
    assert TotalCost([d]) == Cost(d) + TotalCost([]);
  }

  lemma {:induction false} Reassociate<T>(a: seq<T>, b: seq<T>, more: seq<T>, c: seq<T>, d: seq<T>)
    requires a + b == c + d
    ensures a + (b + more) == c + (d + more)
  {
    assert a + (b + more) == (a + b) + more;
    assert c + (d + more) == (c + d) + more;
  }

  lemma {:induction false} Conserved(handed: seq<Datagram>, carried: seq<Datagram>, more: seq<Datagram>,
                                     open: seq<Datagram>, carriedNow: seq<Datagram>)
    requires carried + more == open + carriedNow
    ensures handed + carried + more == handed + open + carriedNow
  {
    assert handed + carried + more == handed + (carried + more);
    assert handed + open + carriedNow == handed + (open + carriedNow);
  }

  /** The datagram carried over is the first of whatever comes next. */
  lemma {:induction false} FullOnesExtended(batches: seq<Batch>, carried: Batch, more: Batch, open: Batch,
                                            carriedNow: Batch, full: seq<bool>)
    requires |full| == |batches| && FullOnes(batches + Optional(carried), full)
    requires carried + more == open + carriedNow && |carriedNow| <= 1
    ensures FullOnes(batches + Optional(open) + Optional(carriedNow), full)
  {
    var before, now := batches + Optional(carried), batches + Optional(open) + Optional(carriedNow);
    forall i | 0 <= i < |full| && full[i]
      ensures i + 1 < |now| && FullBefore(now[i], now[i + 1])
    {
      assert FullBefore(before[i], before[i + 1]);
      if i + 1 < |batches| {
        assert now[i] == before[i] && now[i + 1] == before[i + 1];
      } else {
        assert carried != [] && before[i + 1] == carried;
        assert (carried + more)[0] == carried[0];
        assert now[i + 1][0] == (open + carriedNow)[0];
      }
    }
  }

  lemma {:induction false} FullOnesClosed(batches: seq<Batch>, open: Batch, carried: Batch, full: seq<bool>,
                                          isFull: bool)
    requires |full| == |batches| && FullOnes(batches + Optional(open) + Optional(carried), full)
    requires open != [] && (isFull ==> FullBefore(open, carried))
    ensures FullOnes(batches + Optional(open) + Optional(carried), full + [isFull])
  {
    assert batches + Optional(open) == batches + [open];
  }

  lemma {:induction false} StillAccounted(a: Account, more: Batch, open: Batch, carriedNow: Batch, closed: seq<bool>)
    requires Consistent(a) && a.open == [] && |a.full| == |a.batches|
    requires a.carried + more == open + carriedNow && |carriedNow| <= 1
    requires |closed| <= 1 && TotalCost(open) <= CAPACITY
    requires closed != [] ==> open != [] && (closed[0] ==> FullBefore(open, carriedNow))
    ensures Consistent(Account(a.got + more, a.frames, a.batches, open, carriedNow, a.full + closed))
  {
    assert Flatten(a.batches) + [] + a.carried == Flatten(a.batches) + a.carried;
    Conserved(Flatten(a.batches), a.carried, more, open, carriedNow);
    assert AllBatches(a) == a.batches + Optional(a.carried);
    FullOnesExtended(a.batches, a.carried, more, open, carriedNow, a.full);
    if closed == [] {
      assert a.full + closed == a.full;
    } else {
      FullOnesClosed(a.batches, open, carriedNow, a.full, closed[0]);
      assert closed == [closed[0]];
    }
  }

  lemma {:induction false} HandedOn(a: Account, frame: seq<byte>)
    requires Consistent(a) && a.open != [] && CarriesBatch(frame, a.open)
    ensures Consistent(Account(a.got, a.frames + [frame], a.batches + [a.open], [], a.carried, a.full))
  {
    FlattenSnoc(a.batches, a.open);
    var batches := a.batches + [a.open];
    forall i | 0 <= i < |batches| ensures CarriesAt(a.frames + [frame], batches, i) {
      assert i < |a.frames| ==> CarriesAt(a.frames, a.batches, i);
    }
    assert Flatten(a.batches) + a.open + a.carried == Flatten(batches) + [] + a.carried;
    assert AllBatches(a) == batches + Optional([]) + Optional(a.carried);
  }

  // ----- what the account says about the number of frames -----

  /** No other way of splitting what was read uses fewer frames, but for one frame for each that a timeout
      closed; and so the number of frames is bounded by the total cost and the number of timeouts. */
  lemma {:induction false} TimeoutCostsOneFrame(a: Account, other: seq<Batch>)
    requires Consistent(a) && FullyFlagged(a)
    requires AllFit(other) && Flatten(other) == a.got
    ensures |AllBatches(a)| <= |other| + NotFull(a.full)
  {
    AllIsGot(a);
    GreedyIsOptimal(AllBatches(a), a.full, other);
  }

  lemma {:induction false} AllIsGot(a: Account)
    requires Consistent(a) && FullyFlagged(a)
    ensures Flatten(AllBatches(a)) == a.got && Greedy(AllBatches(a), a.full)
  {
    FlattenAppend(a.batches + Optional(a.open), Optional(a.carried));
    FlattenAppend(a.batches, Optional(a.open));
    FlattenOptional(a.open);
    FlattenOptional(a.carried);
  }

  /** A frame handed on and closed as full is short of the maximum by at most the MTU plus one. */
  lemma {:induction false} FullFramesAreLarge(a: Account, i: nat, mtu: nat)
    requires Consistent(a) && FullyFlagged(a) && i < |a.frames| && a.full[i] && Readable(a.got, mtu)
    ensures Large(a.frames[i], mtu)
  {
    var all := AllBatches(a);
    assert FullBefore(all[i], all[i + 1]) && all[i] == a.batches[i] && CarriesAt(a.frames, a.batches, i);
    AllIsGot(a);
    InFlatten(all, i + 1, all[i + 1][0]);
    FullFrameSize(all[i], all[i + 1], mtu);
  }

  lemma {:induction false} SmallOnesFlagged(frames: seq<seq<byte>>, full: seq<bool>, mtu: nat)
    requires |frames| <= |full|
    requires forall i :: 0 <= i < |frames| && full[i] ==> Large(frames[i], mtu)
    ensures SmallOnes(frames, mtu) <= NotFull(full)
  {
    if frames != [] {
      SmallOnesFlagged(frames[1..], full[1..], mtu);
    }
  }

  lemma {:induction false} LoopIsFrugal(a: Account, mtu: nat)
    requires Consistent(a) && FullyFlagged(a) && Readable(a.got, mtu)
    ensures Frugal(a, NotFull(a.full), mtu)
  {
    AllIsGot(a);
    GreedyBound(AllBatches(a), a.full);
    forall other | AllFit(other) && Flatten(other) == a.got ensures |AllBatches(a)| <= |other| + NotFull(a.full) {
      TimeoutCostsOneFrame(a, other);
    }
    forall i | 0 <= i < |a.frames| && a.full[i] ensures Large(a.frames[i], mtu) {
      FullFramesAreLarge(a, i, mtu);
    }
    SmallOnesFlagged(a.frames, a.full, mtu);
  }

  lemma {:induction false} InFlatten<T>(lists: seq<seq<T>>, i: nat, x: T)
    requires i < |lists| && x in lists[i]
    ensures x in Flatten(lists)
  {
    if i > 0 {
      InFlatten(lists[1..], i - 1, x);
    }
  }

  lemma FlattenOptional(batch: Batch)
    ensures Flatten(Optional(batch)) == batch
  {
    assert batch != [] ==> Flatten([batch]) == batch + Flatten([]);
  }
}
