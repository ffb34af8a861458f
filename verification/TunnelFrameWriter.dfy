/** The writer that lays out a frame in place, inside a buffer it does not own. */
module FrameWriter {
  import opened Bytes
  import opened FrameFormat

  /** memcpy into `buffer` at `offset`. */
  method Store(buffer: array<byte>, offset: nat, bytes: seq<byte>)
    requires offset + |bytes| <= buffer.Length
    modifies buffer
    ensures buffer[offset..offset + |bytes|] == bytes
    ensures forall i :: 0 <= i < offset || offset + |bytes| <= i < buffer.Length ==> buffer[i] == old(buffer[i])
  {
    forall i | 0 <= i < |bytes| {
      buffer[offset + i] := bytes[i];
    }
  }

  method InitHeaderInfo(buffer: array<byte>)
    requires HEADER_INFO_SIZE <= buffer.Length
    modifies buffer
    ensures buffer[0..3] == MAGIC && buffer[DESC_OFFSET] == VERSION
    ensures buffer[SIZE_OFFSET] == buffer[SIZE_OFFSET + 1] == 0
    ensures forall i :: HEADER_INFO_SIZE <= i < buffer.Length ==> buffer[i] == old(buffer[i])
  {
    Store(buffer, 0, MAGIC);
    buffer[DESC_OFFSET] := VERSION;  // and no flags
    buffer[SIZE_OFFSET] := 0;
    buffer[SIZE_OFFSET + 1] := 0;
  }

  /** What `remainingBytes` computes from the distance between cursor and end. */
  function Remaining(gap: nat): nat {
    if gap < SEPARATOR_SIZE then 0 else gap - SEPARATOR_SIZE
  }

  /** A datagram no larger than what is reported as remaining can be written without tripping the
      writer's assertion, except the empty datagram when not even a separator is left. */
  lemma RemainingIsTruthful(gap: nat, d: Datagram)
    ensures (|d| <= Remaining(gap) ==> Cost(d) <= gap) <==> (d != [] || gap >= SEPARATOR_SIZE)
    ensures d != [] ==> (|d| <= Remaining(gap) <==> Cost(d) <= gap)
  {
  }

  class TunnelFrameWriter {
    const buffer: array<byte>
    const end: nat
    var current: nat
    ghost var written: seq<Datagram>  // the datagrams in the frame so far

    ghost predicate Valid()
      reads this, buffer
    {
      && MIN_FRAME_SIZE <= end <= MAX_FRAME_SIZE && end <= buffer.Length
      && HEADER_SIZE <= current <= end
      && buffer[0..3] == MAGIC && buffer[DESC_OFFSET] == VERSION
      && buffer[HEADER_SIZE..current] == EncodeBody(written)
    }

    /** Starts a frame; of the buffer only the six bytes of the header info are touched. */
    constructor (buffer: array<byte>, size: nat)
      requires MIN_FRAME_SIZE <= size <= MAX_FRAME_SIZE && size <= buffer.Length
      modifies buffer
      ensures Valid() && this.buffer == buffer && end == size && current == HEADER_SIZE && written == []
      ensures forall i :: HEADER_INFO_SIZE <= i < buffer.Length ==> buffer[i] == old(buffer[i])
    {
      this.buffer := buffer;
      this.end := size;
      this.current := HEADER_SIZE;
      this.written := [];
      new;
      InitHeaderInfo(buffer);
    }

    function RemainingBytes(): (n: nat)
      requires Valid()
      reads this, buffer
      ensures n > 0 ==> current + SEPARATOR_SIZE + n == end
      ensures n == 0 ==> current + SEPARATOR_SIZE >= end
    {
      Remaining(end - current)
    }

    /** Turns the `size` bytes after the separator, whatever they are, into the next datagram. */
    method OnDatagramWritten(size: nat)
      requires Valid()
      requires current + SEPARATOR_SIZE + size <= end
      modifies this`current, this`written, buffer
      ensures Valid()
      ensures current == old(current) + SEPARATOR_SIZE + size
      ensures written == old(written) + [old(buffer[current + SEPARATOR_SIZE..current + SEPARATOR_SIZE + size])]
      ensures forall i :: 0 <= i < old(current) || current <= i < buffer.Length ==> buffer[i] == old(buffer[i])
    {
      ghost var start, body := current, buffer[HEADER_SIZE..current];
      ghost var d := buffer[current + SEPARATOR_SIZE..current + SEPARATOR_SIZE + size];
      Store(buffer, current, WordBytes(size));
      EncodeBodySnoc(written, d);
      written := written + [d];
      current := current + SEPARATOR_SIZE + size;
      assert buffer[start + SEPARATOR_SIZE..current] == d;
      ThreeParts(buffer[HEADER_SIZE..current], body, Separator(size), d);
    }

    /** Copies a datagram in and records it. */
    method Append(d: Datagram)
      requires Valid()
      requires Cost(d) <= end - current
      modifies this`current, this`written, buffer
      ensures Valid()
      ensures current == old(current) + Cost(d) && written == old(written) + [d]
      ensures forall i :: 0 <= i < old(current) || current <= i < buffer.Length ==> buffer[i] == old(buffer[i])
    {
      ghost var body := buffer[HEADER_SIZE..current];
      Store(buffer, current + SEPARATOR_SIZE, d);
      assert buffer[HEADER_SIZE..current] == body;
      OnDatagramWritten(|d|);
    }

    /** Fills in the size; the bytes up to the cursor are then a frame holding what was written. */
    method Close()
      requires Valid()
      modifies buffer
      ensures Valid()
      ensures forall i :: 0 <= i < SIZE_OFFSET || HEADER_INFO_SIZE <= i < buffer.Length ==> buffer[i] == old(buffer[i])
      ensures DeclaredSize(buffer[..]) == current
      ensures IsFrame(buffer[..current]) && Tiled(BodyOf(buffer[..current]))
      ensures DatagramsOf(buffer[..current]) == written
      ensures current == HEADER_SIZE + TotalCost(written)
    {
      ghost var body := buffer[HEADER_SIZE..current];
      Store(buffer, SIZE_OFFSET, WordBytes(current));
      assert buffer[HEADER_SIZE..current] == body;
      ClosedFrame(buffer[..], current, written);
      assert buffer[..][..current] == buffer[..current];
    }

    /** Header fields are plain stores. */
    method SetSessionId(id: seq<byte>)
      requires Valid() && |id| == SESSION_SIZE
      modifies buffer
      ensures Valid()
      ensures buffer[SESSION_OFFSET..SEQ_NUM_OFFSET] == id
      ensures forall i :: 0 <= i < SESSION_OFFSET || SEQ_NUM_OFFSET <= i < buffer.Length ==> buffer[i] == old(buffer[i])
    {
      ghost var body := buffer[HEADER_SIZE..current];
      Store(buffer, SESSION_OFFSET, id);
      assert buffer[HEADER_SIZE..current] == body;
    }
  }

  lemma EncodedBodySplits(body: seq<byte>, written: seq<Datagram>)
    requires body == EncodeBody(written) && |body| < 0x1_0000
    ensures Tiled(body) && SplitBody(body).records == written && |body| == TotalCost(written)
  {
    EncodeBodyLength(written);
    FitImpliesSized(written);
    SplitBodyUnique(written, []);
    assert body == EncodeBody(written) + [];
  }

  lemma EncodeBodySnoc(written: seq<Datagram>, d: Datagram)
    ensures EncodeBody(written + [d]) == EncodeBody(written) + (Separator(|d|) + d)
  {
    EncodeBodyAppend(written, [d]);
    EncodeBodyCons(d, []);
    assert [d] + [] == [d];
    assert Separator(|d|) + d + EncodeBody([]) == Separator(|d|) + d;
  }

  lemma ThreeParts(whole: seq<byte>, a: seq<byte>, b: seq<byte>, c: seq<byte>)
    requires |whole| == |a| + |b| + |c|
    requires whole[..|a|] == a && whole[|a|..|a| + |b|] == b && whole[|a| + |b|..] == c
    ensures whole == a + (b + c)
  {
  }

  lemma HeaderAccepted(bytes: seq<byte>, current: nat)
    requires HEADER_SIZE <= current <= |bytes| && current <= MAX_FRAME_SIZE
    requires bytes[0] == MAGIC[0] && bytes[DESC_OFFSET] == VERSION
    requires bytes[SIZE_OFFSET..SIZE_OFFSET + 2] == WordBytes(current)
    ensures DeclaredSize(bytes) == current && IsFrame(bytes[..current])
  {
    assert bytes[SIZE_OFFSET..SIZE_OFFSET + 2] == [bytes[SIZE_OFFSET], bytes[SIZE_OFFSET + 1]];
  }

  lemma ClosedFrame(bytes: seq<byte>, current: nat, written: seq<Datagram>)
    requires HEADER_SIZE <= current <= |bytes| && current <= MAX_FRAME_SIZE
    requires bytes[0..3] == MAGIC && bytes[DESC_OFFSET] == VERSION
    requires bytes[SIZE_OFFSET..SIZE_OFFSET + 2] == WordBytes(current)
    requires bytes[HEADER_SIZE..current] == EncodeBody(written)
    ensures DeclaredSize(bytes) == current
    ensures IsFrame(bytes[..current]) && Tiled(BodyOf(bytes[..current])) && DatagramsOf(bytes[..current]) == written
    ensures current == HEADER_SIZE + TotalCost(written)
  {
    assert bytes[0] == bytes[0..3][0];
    HeaderAccepted(bytes, current);
    assert BodyOf(bytes[..current]) == bytes[HEADER_SIZE..current];
    EncodedBodySplits(bytes[HEADER_SIZE..current], written);
  }

  /** A frame that one datagram fills but for one byte: zero bytes are reported as remaining, and not even an
      empty datagram can be written any more. */
  method FillToOneByte() returns (writer: TunnelFrameWriter)
    ensures writer.Valid() && writer.written == [seq(MAX_FRAME_SIZE - HEADER_SIZE - SEPARATOR_SIZE - 1, _ => 0)]
    ensures writer.end - writer.current == 1 < Cost([]) && writer.RemainingBytes() == 0
  {
    var buffer := new byte[MAX_FRAME_SIZE];
    writer := new TunnelFrameWriter(buffer, MAX_FRAME_SIZE);
    writer.Append(seq(MAX_FRAME_SIZE - HEADER_SIZE - SEPARATOR_SIZE - 1, _ => 0));
  }

  /** Assigns a sequence number to a frame that is already closed, in place, low byte first. */
  method SetSequenceNumberOnClosedBuffer(buffer: array<byte>, size: nat, seqNum: nat)
    requires HEADER_SIZE <= size <= buffer.Length
    modifies buffer
    ensures buffer[..size] == Stamp(old(buffer[..size]), seqNum)
    ensures forall k :: 0 <= k < SEQ_NUM_SIZE ==>
              Range(k) > 0 && buffer[SEQ_NUM_OFFSET + k] == seqNum / Range(k) % 256
    ensures buffer[size..] == old(buffer[size..])
  {
    ghost var before := buffer[..size];
    Store(buffer, SEQ_NUM_OFFSET, LittleEndian(seqNum, SEQ_NUM_SIZE));
    assert buffer[SEQ_NUM_OFFSET..SIGNATURE_OFFSET] == LittleEndian(seqNum, SEQ_NUM_SIZE);
    ThreeParts(buffer[..size], before[..SEQ_NUM_OFFSET], LittleEndian(seqNum, SEQ_NUM_SIZE),
               before[SIGNATURE_OFFSET..]);
    forall k | 0 <= k < SEQ_NUM_SIZE
      ensures Range(k) > 0 && buffer[SEQ_NUM_OFFSET + k] == seqNum / Range(k) % 256
    {
      LittleEndianAt(seqNum, SEQ_NUM_SIZE, k);
      assert buffer[SEQ_NUM_OFFSET + k] == buffer[SEQ_NUM_OFFSET..SIGNATURE_OFFSET][k];
    }
  }
}
