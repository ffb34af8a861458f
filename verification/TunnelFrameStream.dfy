/** A socket and the frames sent and received on it. */
module FrameStream {
  import opened Bytes
  import opened FrameFormat
  import opened FrameWriter
  import opened Deframing

  /** A non-blocking descriptor and its environment. `incoming` is what will still arrive before the
      connection ends, `capacity` how many bytes it will still take before writes fail for good, and
      `stalls` how often a call can still find nothing to do. How the bytes are cut up is left open. */
  class FileDescriptor {
    var incoming: seq<byte>
    var outgoing: seq<byte>
    var capacity: nat
    var stalls: nat

    constructor (incoming: seq<byte>, capacity: nat, stalls: nat)
      ensures this.incoming == incoming && this.capacity == capacity && outgoing == []
    {
      this.incoming, this.outgoing, this.capacity, this.stalls := incoming, [], capacity, stalls;
    }

    /** -1 stands for EAGAIN, 0 for a closed connection. */
    method ReadNonBlocking(buffer: array<byte>, offset: nat, n: nat) returns (nRead: int)
      requires 0 < n && offset + n <= buffer.Length
      modifies this`incoming, this`stalls, buffer
      ensures -1 <= nRead <= n && nRead <= |old(incoming)|
      ensures nRead == -1 ==> stalls < old(stalls) && incoming == old(incoming) && buffer[..] == old(buffer[..])
      ensures nRead == 0 <==> nRead != -1 && old(incoming) == []
      ensures nRead >= 0 ==>
                && incoming == old(incoming)[nRead..]
                && buffer[offset..offset + nRead] == old(incoming)[..nRead]
                && forall i :: 0 <= i < offset ==> buffer[i] == old(buffer[i])
    {
      var stalled: bool := *;
      if stalls > 0 && stalled {
        stalls := stalls - 1;
        return -1;
      }
      if incoming == [] {
        return 0;
      }
      var k: nat :| 1 <= k <= n && k <= |incoming|;
      Store(buffer, offset, incoming[..k]);
      incoming := incoming[k..];
      return k;
    }

    /** Retries until there is progress of at least one byte; not ok is the exception. */
    method Read(buffer: array<byte>, offset: nat, n: nat) returns (ok: bool, nRead: nat)
      requires 0 < n && offset + n <= buffer.Length
      modifies this`incoming, this`stalls, buffer
      ensures ok <==> old(incoming) != []
      ensures nRead <= n && nRead <= |old(incoming)| && (ok ==> nRead > 0) && (!ok ==> nRead == 0)
      ensures incoming == old(incoming)[nRead..]
      ensures buffer[offset..offset + nRead] == old(incoming)[..nRead]
      ensures forall i :: 0 <= i < offset ==> buffer[i] == old(buffer[i])
    {
      ghost var before := buffer[..];
      while true
        invariant incoming == old(incoming) && buffer[..] == before
        decreases stalls
      {
        var r := ReadNonBlocking(buffer, offset, n);
        if r > 0 {
          return true, r;
        } else if r == 0 {
          return false, 0;
        }
      }
    }

    method WriteNonBlocking(bytes: seq<byte>) returns (nWritten: int)
      requires bytes != []
      modifies this`outgoing, this`capacity, this`stalls
      ensures -1 <= nWritten <= |bytes| && nWritten <= old(capacity)
      ensures nWritten == -1 ==> stalls < old(stalls) && outgoing == old(outgoing) && capacity == old(capacity)
      ensures nWritten == 0 <==> nWritten != -1 && old(capacity) == 0
      ensures nWritten >= 0 ==> outgoing == old(outgoing) + bytes[..nWritten] && capacity == old(capacity) - nWritten
    {
      var stalled: bool := *;
      if stalls > 0 && stalled {
        stalls := stalls - 1;
        return -1;
      }
      if capacity == 0 {
        return 0;
      }
      var k: nat :| 1 <= k <= |bytes| && k <= capacity;
      outgoing := outgoing + bytes[..k];
      capacity := capacity - k;
      return k;
    }

    method Write(bytes: seq<byte>) returns (ok: bool, nWritten: nat)
      requires bytes != []
      modifies this`outgoing, this`capacity, this`stalls
      ensures ok <==> old(capacity) > 0
      ensures nWritten <= |bytes| && nWritten <= old(capacity) && (ok ==> nWritten > 0) && (!ok ==> nWritten == 0)
      ensures outgoing == old(outgoing) + bytes[..nWritten] && capacity == old(capacity) - nWritten
    {
      while true
        invariant outgoing == old(outgoing) && capacity == old(capacity)
        decreases stalls
      {
        var r := WriteNonBlocking(bytes);
        if r > 0 {
          return true, r;
        } else if r == 0 {
          return false, 0;
        }
      }
    }
  }

  class TunnelFrameStream {
    const fd: FileDescriptor
    const buffer: array<byte>

    ghost predicate Valid() {
      buffer.Length == MAX_FRAME_SIZE
    }

    constructor (fd: FileDescriptor)
      ensures Valid() && this.fd == fd && fresh(this) && fresh(buffer)
    {
      this.fd := fd;
      this.buffer := new byte[MAX_FRAME_SIZE];
    }

    /** Sends a frame in as many writes as it takes. Either all of it goes out, or as much as the
        connection still takes, and from then on nothing goes out any more. */
    method Send(frame: seq<byte>) returns (ok: bool)
      modifies fd`outgoing, fd`capacity, fd`stalls
      ensures ok <==> |frame| <= old(fd.capacity)
      ensures ok ==> fd.outgoing == old(fd.outgoing) + frame && fd.capacity == old(fd.capacity) - |frame|
      ensures !ok ==> fd.outgoing == old(fd.outgoing) + frame[..old(fd.capacity)] && fd.capacity == 0
    {
      var numWritten := 0;
      while numWritten < |frame|
        invariant 0 <= numWritten <= |frame|
        invariant fd.outgoing == old(fd.outgoing) + frame[..numWritten]
        invariant fd.capacity == old(fd.capacity) - numWritten
      {
        var progress, n := fd.Write(frame[numWritten..]);
        if !progress {
          return false;
        }
        assert frame[..numWritten] + frame[numWritten..][..n] == frame[..numWritten + n];
        numWritten := numWritten + n;
      }
      return true;
    }

    /** Reads until `total` bytes of the buffer are filled, starting at `numRead`. */
    method Fill(numRead: nat, total: nat) returns (ok: bool)
      requires Valid() && numRead <= total <= MAX_FRAME_SIZE
      modifies fd`incoming, fd`stalls, buffer
      ensures ok <==> total - numRead <= |old(fd.incoming)|
      ensures ok ==> buffer[..total] == old(buffer[..numRead]) + old(fd.incoming)[..total - numRead]
                     && fd.incoming == old(fd.incoming)[total - numRead..]
      ensures !ok ==> fd.incoming == []
    {
      ghost var start, source := buffer[..numRead], fd.incoming;
      var n := numRead;
      while n < total
        invariant numRead <= n <= total && n - numRead <= |source|
        invariant buffer[..n] == start + source[..n - numRead]
        invariant fd.incoming == source[n - numRead..]
        decreases total - n
      {
        ghost var done := buffer[..n];
        var progress, k := fd.Read(buffer, n, total - n);
        if !progress {
          assert |source| == n - numRead;
          return false;
        }
        assert source[..n - numRead] + source[n - numRead..][..k] == source[..n + k - numRead];
        assert buffer[..n + k] == done + source[n - numRead..][..k];
        n := n + k;
      }
      return true;
    }

    /** Receives one frame. The outcome is a function of the bytes on their way, however they are cut
        up by the reads, and no byte beyond the frame is taken. */
    method Receive() returns (r: Received)
      requires Valid()
      modifies fd`incoming, fd`stalls, buffer
      ensures r == ReceiveOne(old(fd.incoming))
      ensures r.Frame? ==> fd.incoming == old(fd.incoming)[|r.frame|..] && |r.frame| <= MAX_FRAME_SIZE
                           && buffer[..|r.frame|] == r.frame
    {
      ghost var source := fd.incoming;
      var ok := Fill(0, HEADER_INFO_SIZE);
      if !ok {
        return Starved;
      }
      assert buffer[..HEADER_INFO_SIZE] == source[..HEADER_INFO_SIZE];
      CheckReadsHeaderInfo(source, HEADER_INFO_SIZE);
      var check := Check(buffer[..HEADER_INFO_SIZE]);
      if check != Accepted {
        return Invalid(check);
      }
      var total := DeclaredSize(buffer[..HEADER_INFO_SIZE]);
      if HEADER_INFO_SIZE < total {
        ok := Fill(HEADER_INFO_SIZE, total);
        if !ok {
          return Starved;
        }
        assert source[..total] == source[..HEADER_INFO_SIZE] + source[HEADER_INFO_SIZE..][..total - HEADER_INFO_SIZE];
      }
      if HEADER_INFO_SIZE > total {
        return Aborted;
      }
      return Frame(buffer[..total]);
    }

    /** The loop of a socket thread: passes on frame after frame until a receive throws, or until the
        interruption is seen at the `checks`-th look. */
    method ReceiveLoop(checks: nat) returns (passedOn: seq<seq<byte>>, interrupted: bool)
      requires Valid()
      modifies fd`incoming, fd`stalls, buffer
      ensures passedOn <= ReceiveMany(old(fd.incoming)).frames
      ensures !interrupted ==> passedOn == ReceiveMany(old(fd.incoming)).frames
      ensures interrupted ==>
                && |passedOn| == checks
                && ReceiveMany(old(fd.incoming)).frames == passedOn + ReceiveMany(fd.incoming).frames
    {
      passedOn := [];
      ghost var all := ReceiveMany(fd.incoming).frames;
      for i := 0 to checks
        invariant |passedOn| == i && all == passedOn + ReceiveMany(fd.incoming).frames
      {
        var r := Receive();
        match r {
          case Frame(f) => passedOn := passedOn + [f];
          case _ => return passedOn, false;
        }
      }
      return passedOn, true;
    }
  }
}
