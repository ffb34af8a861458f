/** The reader that walks over the datagrams of a received frame. */
module FrameReader {
  import opened Bytes
  import opened FrameFormat

  datatype NextResult = More | Done | BadlyFormatted

  class TunnelFrameReader {
    const buffer: array<byte>
    const beyond: byte  // the byte that happens to follow the buffer in memory
    const end: nat      // the size the header declares
    var current: nat    // 0 until `Next` is first called

    ghost predicate Valid()
      reads this
    {
      end <= buffer.Length && (current == 0 || current >= HEADER_SIZE)
    }

    /** `Next` has said `More` and nothing has been read since. */
    predicate AtDatagram()
      reads this
    {
      HEADER_SIZE <= current < end
    }

    /** The part of the body not yet passed over. */
    function Ahead(): seq<byte>
      requires Valid() && HEADER_SIZE <= current <= end
      reads this, buffer
    {
      buffer[current..end]
    }

    /** A throwing header check is the caller's `Check(..) != Accepted`. The declared size is not
        compared with the size of the buffer; that it fits is left to whoever filled the buffer. */
    constructor (buffer: array<byte>, size: nat, beyond: byte)
      requires size <= buffer.Length && Check(buffer[..size]) == Accepted
      requires DeclaredSize(buffer[..size]) <= buffer.Length
      ensures Valid() && fresh(this)
      ensures this.buffer == buffer && this.beyond == beyond
      ensures end == DeclaredSize(buffer[..size]) && current == 0
    {
      this.buffer := buffer;
      this.beyond := beyond;
      this.end := Word(buffer[SIZE_OFFSET], buffer[SIZE_OFFSET + 1]);
      this.current := 0;
    }

    /** The size in the separator at the cursor. When one byte is left before the end, the second
        byte of the separator comes from outside the frame, possibly from outside the buffer. */
    function Size(): (n: nat)
      requires Valid() && AtDatagram()
      reads this, buffer
      ensures StartsWithRecord(Ahead()) ==> n == FirstSize(Ahead())
      ensures StartsWithRecord(Ahead()) <==> current + SEPARATOR_SIZE + n <= end
    {
      var high: byte := if current + 1 < buffer.Length then buffer[current + 1] else beyond;
      Word(buffer[current], high)
    }

    /** The bytes a caller sees at the cursor, as far as they lie inside the buffer. They are a
        datagram of the frame exactly when a complete record is ahead: `More` alone does not say so. */
    function Data(): (d: Datagram)
      requires Valid() && AtDatagram()
      reads this, buffer
      ensures StartsWithRecord(Ahead()) ==>
                d == Ahead()[SEPARATOR_SIZE..SEPARATOR_SIZE + FirstSize(Ahead())] && |d| == Size()
    {
      var first := current + SEPARATOR_SIZE;
      var last := first + Size();
      if last <= buffer.Length then
        assert StartsWithRecord(Ahead()) ==> buffer[first..last] == Ahead()[SEPARATOR_SIZE..SEPARATOR_SIZE + Size()];
        buffer[first..last]
      else if first <= buffer.Length then buffer[first..]
      else []
    }

    /** Moves to the next datagram. From a datagram it throws exactly when no complete record is
        ahead, whatever bytes follow the frame. */
    method Next() returns (r: NextResult)
      requires Valid()
      modifies this`current
      ensures Valid()
      ensures old(current) == 0 ==> current == HEADER_SIZE
      ensures old(AtDatagram() && StartsWithRecord(Ahead())) ==>
                current == old(current + SEPARATOR_SIZE + FirstSize(Ahead())) <= end
      ensures old(AtDatagram() && !StartsWithRecord(Ahead())) ==> current > end
      ensures old(current) != 0 && old(current) >= end ==> current == old(current)
      ensures r == if current > end then BadlyFormatted else if current == end then Done else More
    {
      if current == 0 {
        current := current + HEADER_SIZE;
      } else if current < end {
        current := current + SEPARATOR_SIZE + Size();
      }
      if current > end {
        return BadlyFormatted;
      }
      return if current < end then More else Done;
    }
  }

  /** Whatever the end of the frame, size and datagram are read on to the end of the buffer. */
  lemma ReadsOn(reader: TunnelFrameReader)
    requires reader.Valid() && reader.AtDatagram() && reader.current + SEPARATOR_SIZE <= reader.buffer.Length
    ensures reader.Size() == Word(reader.buffer[reader.current], reader.buffer[reader.current + 1])
    ensures var first := reader.current + SEPARATOR_SIZE;
            first + reader.Size() <= reader.buffer.Length ==>
              reader.Data() == reader.buffer[first..first + reader.Size()]
  {
  }

  lemma {:induction false} PastRecord(passed: seq<Datagram>, ahead: seq<byte>)
    requires StartsWithRecord(ahead)
    ensures var n := SEPARATOR_SIZE + FirstSize(ahead);
            && passed + SplitBody(ahead).records == passed + [ahead[SEPARATOR_SIZE..n]] + SplitBody(ahead[n..]).records
            && SplitBody(ahead).rest == SplitBody(ahead[n..]).rest
  {
  }

  /** Iterates a fresh reader to its end or to the exception. */
  method Drain(reader: TunnelFrameReader) returns (ok: bool, datagrams: seq<Datagram>)
    requires reader.Valid() && reader.current == 0
    modifies reader`current
    ensures ok <==> HEADER_SIZE <= reader.end && Tiled(reader.buffer[HEADER_SIZE..reader.end])
    ensures ok ==> datagrams == SplitBody(reader.buffer[HEADER_SIZE..reader.end]).records
  {
    datagrams := [];
    var next := reader.Next();
    if next == BadlyFormatted {
      return false, datagrams;
    }
    ghost var body := reader.buffer[HEADER_SIZE..reader.end];
    ghost var ahead := body;
    while next == More
      invariant reader.Valid() && HEADER_SIZE <= reader.current <= reader.end
      invariant next == if reader.current == reader.end then Done else More
      invariant ahead == reader.Ahead()
      invariant SplitBody(body) == Split(datagrams + SplitBody(ahead).records, SplitBody(ahead).rest)
      decreases reader.end - reader.current
    {
      var d := reader.Data();
      next := reader.Next();
      if next == BadlyFormatted {
        assert SplitBody(ahead).rest == ahead;
        return false, datagrams;
      }
      PastRecord(datagrams, ahead);
      datagrams := datagrams + [d];
      ahead := ahead[SEPARATOR_SIZE + FirstSize(ahead)..];
    }
    assert reader.Ahead() == [];
    return true, datagrams;
  }

  datatype ReadResult = Rejected(reason: HeaderCheck) | BadBody | Read(datagrams: seq<Datagram>)

  /** Checks a buffer and reads all its datagrams. It succeeds exactly on an accepted header followed
      by a tiled body, and then re-encoding what was read reproduces the body byte for byte. */
  method ReadDatagrams(buffer: array<byte>, size: nat, beyond: byte) returns (r: ReadResult)
    requires size <= buffer.Length
    requires Check(buffer[..size]) == Accepted ==> DeclaredSize(buffer[..size]) <= buffer.Length
    ensures Check(buffer[..size]) != Accepted ==> r == Rejected(Check(buffer[..size]))
    ensures Check(buffer[..size]) == Accepted ==>
              var n := DeclaredSize(buffer[..size]);
              && (r.Read? <==> HEADER_SIZE <= n && Tiled(buffer[HEADER_SIZE..n]))
              && (r.Read? ==> r.datagrams == SplitBody(buffer[HEADER_SIZE..n]).records
                              && EncodeBody(r.datagrams) == buffer[HEADER_SIZE..n])
              && (!r.Read? ==> r == BadBody)
  {
    var check := Check(buffer[..size]);
    if check != Accepted {
      return Rejected(check);
    }
    var reader := new TunnelFrameReader(buffer, size, beyond);
    var ok, datagrams := Drain(reader);
    if !ok {
      return BadBody;
    }
    SplitBodyReproduces(buffer[HEADER_SIZE..reader.end]);
    assert EncodeBody(datagrams) + [] == EncodeBody(datagrams);
    return Read(datagrams);
  }

  /** The verdict and the datagrams depend only on the bytes inside the declared frame. */
  lemma VerdictIsLocal(buf1: seq<byte>, buf2: seq<byte>)
    requires Check(buf1) == Accepted && HEADER_SIZE <= DeclaredSize(buf1) <= |buf1|
    requires DeclaredSize(buf1) <= |buf2| && buf2[..DeclaredSize(buf1)] == buf1[..DeclaredSize(buf1)]
    ensures Check(buf2) == Accepted && DeclaredSize(buf2) == DeclaredSize(buf1)
    ensures SplitBody(buf2[HEADER_SIZE..DeclaredSize(buf2)]) == SplitBody(buf1[HEADER_SIZE..DeclaredSize(buf1)])
  {
    var n := DeclaredSize(buf1);
    CheckReadsHeaderInfo(buf1, n);
    CheckReadsHeaderInfo(buf2, n);
    assert buf2[HEADER_SIZE..n] == buf2[..n][HEADER_SIZE..];
    assert buf1[HEADER_SIZE..n] == buf1[..n][HEADER_SIZE..];
  }
}
