/** Writer and reader together: whatever is written is what is read. */
module FrameRoundTrip {
  import opened Bytes
  import opened FrameFormat
  import opened FrameWriter
  import opened FrameReader

  /** One step of filling a frame: the cost so far grows by the next datagram's. */
  lemma {:induction false} CostOfNext(datagrams: seq<Datagram>, i: nat)
    requires i < |datagrams|
    ensures datagrams[..i + 1] == datagrams[..i] + [datagrams[i]]
    ensures TotalCost(datagrams[..i + 1]) == TotalCost(datagrams[..i]) + Cost(datagrams[i]) <= TotalCost(datagrams)
  {
    TotalCostAppend(datagrams[..i], [datagrams[i]]);
    TotalCostAppend(datagrams[..i + 1], datagrams[i + 1..]);
    assert datagrams == datagrams[..i + 1] + datagrams[i + 1..];
  }

  /** Appends datagram after datagram; what is in front of the cursor stays. */
  method AppendAll(writer: TunnelFrameWriter, datagrams: seq<Datagram>)
    requires writer.Valid() && writer.current + TotalCost(datagrams) <= writer.end
    modifies writer, writer.buffer
    ensures writer.Valid() && writer.written == old(writer.written) + datagrams
    ensures writer.current == old(writer.current) + TotalCost(datagrams)
    ensures forall i :: 0 <= i < old(writer.current) || writer.current <= i < writer.buffer.Length ==>
              writer.buffer[i] == old(writer.buffer[i])
  {
    for i := 0 to |datagrams|
      invariant writer.Valid() && writer.written == old(writer.written) + datagrams[..i]
      invariant writer.current == old(writer.current) + TotalCost(datagrams[..i])
      invariant forall j :: 0 <= j < old(writer.current) || writer.current <= j < writer.buffer.Length ==>
                  writer.buffer[j] == old(writer.buffer[j])
    {
      CostOfNext(datagrams, i);
      writer.Append(datagrams[i]);
    }
    assert datagrams[..|datagrams|] == datagrams;
  }

  /** Fills and closes a frame; nothing past its end is touched. */
  method WriteAll(buffer: array<byte>, size: nat, datagrams: seq<Datagram>, sessionId: seq<byte>) returns (n: nat)
    requires MIN_FRAME_SIZE <= size <= MAX_FRAME_SIZE && size <= buffer.Length
    requires HEADER_SIZE + TotalCost(datagrams) <= size && |sessionId| == SESSION_SIZE
    modifies buffer
    ensures n == HEADER_SIZE + TotalCost(datagrams)
    ensures IsFrame(buffer[..n]) && DatagramsOf(buffer[..n]) == datagrams && Tiled(BodyOf(buffer[..n]))
    ensures SessionIdOf(buffer[..n]) == sessionId
    ensures buffer[n..] == old(buffer[n..])
  {
    hide EncodeBody, SplitBody, TotalCost;
    var writer := new TunnelFrameWriter(buffer, size);
    writer.SetSessionId(sessionId);
    AppendAll(writer, datagrams);
    n := writer.current;
    assert buffer[SESSION_OFFSET..SEQ_NUM_OFFSET] == sessionId;
    writer.Close();
    assert buffer[..n][SESSION_OFFSET..SEQ_NUM_OFFSET] == buffer[SESSION_OFFSET..SEQ_NUM_OFFSET] == sessionId;
  }

  /** Writes any list of datagrams that fits (empty ones included), closes the frame and reads it
      back. The sequence number is assigned after closing, as the socket side does. */
  method WriteThenRead(buffer: array<byte>, size: nat, datagrams: seq<Datagram>, sessionId: seq<byte>, seqNum: nat,
                       beyond: byte)
    returns (r: ReadResult)
    requires MIN_FRAME_SIZE <= size <= MAX_FRAME_SIZE && size <= buffer.Length
    requires HEADER_SIZE + TotalCost(datagrams) <= size
    requires |sessionId| == SESSION_SIZE && seqNum < Range(SEQ_NUM_SIZE)
    modifies buffer
    ensures r == Read(datagrams)
    ensures var n := HEADER_SIZE + TotalCost(datagrams);
            && IsFrame(buffer[..n]) && DatagramsOf(buffer[..n]) == datagrams
            && SessionIdOf(buffer[..n]) == sessionId && SeqNumOf(buffer[..n]) == seqNum
            && buffer[n..] == old(buffer[n..])
  {
    var n := WriteAll(buffer, size, datagrams, sessionId);
    ghost var closed := buffer[..n];
    SetSequenceNumberOnClosedBuffer(buffer, n, seqNum);
    StampedIsReadable(buffer[..size], n, closed, seqNum);
    assert buffer[..size][..n] == buffer[..n];
    assert buffer[..size][HEADER_SIZE..n] == buffer[HEADER_SIZE..n];
    r := ReadDatagrams(buffer, size, beyond);
  }

  lemma {:induction false} StampedIsReadable(buf: seq<byte>, n: nat, closed: seq<byte>, seqNum: nat)
    requires IsFrame(closed) && n == |closed| <= |buf| && buf[..n] == Stamp(closed, seqNum)
    requires seqNum < Range(SEQ_NUM_SIZE)
    ensures Check(buf) == Accepted && DeclaredSize(buf) == n && IsFrame(buf[..n])
    ensures buf[HEADER_SIZE..n] == BodyOf(closed) == BodyOf(buf[..n])
    ensures SessionIdOf(buf[..n]) == SessionIdOf(closed) && SeqNumOf(buf[..n]) == seqNum
  {
    StampKeepsFrame(closed, seqNum);
    CheckReadsHeaderInfo(buf, n);
    assert BodyOf(buf[..n]) == buf[HEADER_SIZE..n];
  }
}
