/** The first frame each end of a connection sends, and what it makes of the other's. */
module InitialExchange {
  import opened Bytes
  import opened FrameFormat
  import opened FrameWriter
  import opened FrameReader
  import opened Deframing
  import opened FrameStream

  const EXCHANGE_BUFFER_SIZE: nat := 1024
  const IDENTIFIER_SIZE: nat := 16
  const FILLER: byte := 0xAA

  /** "RuralPipeClient" and "RuralPipeServer". */
  const CLIENT_NAME: seq<byte> :=
    [0x52, 0x75, 0x72, 0x61, 0x6C, 0x50, 0x69, 0x70, 0x65, 0x43, 0x6C, 0x69, 0x65, 0x6E, 0x74]
  const SERVER_NAME: seq<byte> :=
    [0x52, 0x75, 0x72, 0x61, 0x6C, 0x50, 0x69, 0x70, 0x65, 0x53, 0x65, 0x72, 0x76, 0x65, 0x72]

  predicate IsName(name: seq<byte>) {
    |name| == IDENTIFIER_SIZE - 1 && 0 !in name
  }

  lemma NamesAreNames()
    ensures IsName(CLIENT_NAME) && IsName(SERVER_NAME)
  {
  }

  /** A C string: what comes before the first NUL. */
  function CString(bytes: seq<byte>): seq<byte> {
    if bytes == [] || bytes[0] == 0 then [] else [bytes[0]] + CString(bytes[1..])
  }

  /** It is all of the bytes up to the first NUL, or all there are. */
  lemma {:induction false} CStringExact(bytes: seq<byte>)
    ensures var n := |CString(bytes)|;
            && n <= |bytes| && CString(bytes) == bytes[..n] && 0 !in CString(bytes)
            && (n < |bytes| ==> bytes[n] == 0)
  {
    if bytes != [] && bytes[0] != 0 {
      CStringExact(bytes[1..]);
    }
  }

  lemma {:induction false} CStringIsName(name: seq<byte>, more: seq<byte>)
    requires 0 !in name
    ensures CString(name + [0] + more) == name
  {
    if name != [] {
      CStringIsName(name[1..], more);
      assert (name + [0] + more)[1..] == name[1..] + [0] + more;
    }
  }

  /** An init frame: number 0, the session, and one datagram with the sender's name. */
  predicate IsGreeting(frame: seq<byte>, id: seq<byte>, name: seq<byte>) {
    && IsFrame(frame) && SessionIdOf(frame) == id && SeqNumOf(frame) == INIT_SEQ_NUM
    && BodyOf(frame) == EncodeBody([name + [0]])
  }

  /** An init frame byte by byte: the magic, version 1 and no flags, the size 176, the session, the number 0, a
      signature that is whatever the buffer was filled with, and one datagram of 16 bytes. */
  function GreetingBytes(id: seq<byte>, name: seq<byte>): seq<byte> {
    [0x52, 0x50, 0x49, 0x01, 0xB0, 0x00] + id + [0, 0, 0, 0, 0, 0, 0, 0] + seq(128, _ => FILLER)
    + [0x10, 0x00] + name + [0]
  }

  lemma GreetingParts(id: seq<byte>, name: seq<byte>)
    requires |id| == SESSION_SIZE && |name| == IDENTIFIER_SIZE - 1
    ensures var frame := GreetingBytes(id, name);
            && |frame| == 176 && frame[..HEADER_INFO_SIZE] == [0x52, 0x50, 0x49, 0x01, 0xB0, 0x00]
            && frame[SESSION_OFFSET..SEQ_NUM_OFFSET] == id
            && frame[SEQ_NUM_OFFSET..SIGNATURE_OFFSET] == [0, 0, 0, 0, 0, 0, 0, 0]
            && frame[SIGNATURE_OFFSET..HEADER_SIZE] == seq(128, _ => FILLER)
            && frame[HEADER_SIZE..] == [0x10, 0x00] + (name + [0])
  {
  }

  lemma GreetingHeader(frame: seq<byte>)
    requires |frame| >= HEADER_INFO_SIZE && frame[..HEADER_INFO_SIZE] == [0x52, 0x50, 0x49, 0x01, 0xB0, 0x00]
    ensures Check(frame) == Accepted && DeclaredSize(frame) == 176
  {
    var start := frame[..HEADER_INFO_SIZE];
    assert frame[0] == start[0] && frame[DESC_OFFSET] == start[3] && frame[4] == start[4] && frame[5] == start[5];
  }

  lemma SameParts(a: seq<byte>, b: seq<byte>)
    requires |a| == |b| >= HEADER_SIZE && a[..HEADER_INFO_SIZE] == b[..HEADER_INFO_SIZE]
    requires a[SESSION_OFFSET..SEQ_NUM_OFFSET] == b[SESSION_OFFSET..SEQ_NUM_OFFSET]
    requires a[SEQ_NUM_OFFSET..SIGNATURE_OFFSET] == b[SEQ_NUM_OFFSET..SIGNATURE_OFFSET]
    requires a[SIGNATURE_OFFSET..HEADER_SIZE] == b[SIGNATURE_OFFSET..HEADER_SIZE]
    requires a[HEADER_SIZE..] == b[HEADER_SIZE..]
    ensures a == b
  {
    forall s: seq<byte> | |s| == |a|
      ensures s == s[..6] + s[6..22] + s[22..30] + s[30..158] + s[158..]
    {}
  }

  lemma GreetingBytesGreet(id: seq<byte>, name: seq<byte>)
    requires |id| == SESSION_SIZE && IsName(name)
    ensures IsGreeting(GreetingBytes(id, name), id, name)
  {
    var frame, d := GreetingBytes(id, name), name + [0];
    GreetingParts(id, name);
    NumberZero();
    GreetingHeader(frame);
    hide GreetingBytes, FromLittleEndian, Check, DeclaredSize;
    EncodeBodyCons(d, []);
    assert [d] + [] == [d];
    assert BodyOf(frame) == Separator(|d|) + d + [];
  }

  lemma NumberZero()
    ensures FromLittleEndian([0, 0, 0, 0, 0, 0, 0, 0]) == INIT_SEQ_NUM
  {
    ZeroBytes(SEQ_NUM_SIZE);
    assert seq(SEQ_NUM_SIZE, _ => 0) == [0, 0, 0, 0, 0, 0, 0, 0];
    LittleEndianRoundTrip(INIT_SEQ_NUM, SEQ_NUM_SIZE);
  }

  lemma GreetingLayout(frame: seq<byte>, id: seq<byte>, name: seq<byte>)
    requires |frame| == 176 && IsName(name) && |id| == SESSION_SIZE && IsGreeting(frame, id, name)
    requires frame[0..3] == MAGIC && frame[DESC_OFFSET] == VERSION
    requires forall i :: SIGNATURE_OFFSET <= i < HEADER_SIZE ==> frame[i] == FILLER
    ensures frame == GreetingBytes(id, name)
  {
    var d, number := name + [0], frame[SEQ_NUM_OFFSET..SIGNATURE_OFFSET];
    EncodeBodyCons(d, []);
    assert [d] + [] == [d];
    assert BodyOf(frame) == Separator(16) + d + [] == [0x10, 0x00] + d;
    LittleEndianInverse(number);
    ZeroBytes(SEQ_NUM_SIZE);
    assert number == seq(SEQ_NUM_SIZE, _ => 0) == [0, 0, 0, 0, 0, 0, 0, 0];
    assert frame[..HEADER_INFO_SIZE] == [0x52, 0x50, 0x49, 0x01, 0xB0, 0x00] by { HeaderOf176(frame); }
    GreetingParts(id, name);
    hide GreetingBytes;
    SameParts(frame, GreetingBytes(id, name));
  }

  lemma HeaderOf176(frame: seq<byte>)
    requires |frame| >= HEADER_INFO_SIZE && frame[0..3] == MAGIC && frame[DESC_OFFSET] == VERSION
    requires DeclaredSize(frame) == 176
    ensures frame[..HEADER_INFO_SIZE] == [0x52, 0x50, 0x49, 0x01, 0xB0, 0x00]
  {
    WordInverse(frame[SIZE_OFFSET], frame[SIZE_OFFSET + 1]);
    assert frame[..HEADER_INFO_SIZE] == frame[0..3] + [frame[3], frame[4], frame[5]];
  }

  function Identifier(frame: seq<byte>): seq<byte> {
    if |frame| < HEADER_SIZE + SEPARATOR_SIZE then [] else CString(frame[HEADER_SIZE + SEPARATOR_SIZE..])
  }

  datatype Exchange =
    | Agreed(peer: seq<byte>, session: seq<byte>)
    | Failed   // an exception
    | Aborted  // an assertion

  /** What an end learns from the bytes the other end sends. */
  function Learned(bytes: seq<byte>): Exchange {
    match ReceiveOne(bytes)
    case Frame(f) => if |f| <= HEADER_SIZE then Failed else Agreed(Identifier(f), SessionIdOf(f))
    case Aborted => Exchange.Aborted
    case _ => Failed
  }

  /** A greeting, whatever follows it, teaches the session and the name of whoever sent it. */
  lemma GreetingTeaches(frame: seq<byte>, id: seq<byte>, name: seq<byte>, more: seq<byte>)
    requires IsGreeting(frame, id, name) && IsName(name)
    ensures ReceiveOne(frame + more) == Frame(frame) && Learned(frame + more) == Agreed(name, id)
  {
    ReceiveOneFrame(frame, more);
    var d := name + [0];
    EncodeBodyCons(d, []);
    assert [d] + [] == [d];
    assert frame[HEADER_SIZE + SEPARATOR_SIZE..] == BodyOf(frame)[SEPARATOR_SIZE..] == d + [];
    CStringIsName(name, []);
    assert d + [] == name + [0] + [];
  }

  /** Starts an init frame in a buffer. */
  method StartGreeting(buffer: array<byte>, id: seq<byte>) returns (writer: TunnelFrameWriter)
    requires buffer.Length == EXCHANGE_BUFFER_SIZE && |id| == SESSION_SIZE
    modifies buffer
    ensures writer.Valid() && fresh(writer) && writer.buffer == buffer && writer.end == buffer.Length
    ensures writer.written == [] && writer.current == HEADER_SIZE
    ensures buffer[SESSION_OFFSET..SEQ_NUM_OFFSET] == id
    ensures buffer[SEQ_NUM_OFFSET..SIGNATURE_OFFSET] == LittleEndian(INIT_SEQ_NUM, SEQ_NUM_SIZE)
    ensures forall i :: SIGNATURE_OFFSET <= i < buffer.Length ==> buffer[i] == old(buffer[i])
  {
    writer := new TunnelFrameWriter(buffer, EXCHANGE_BUFFER_SIZE);
    writer.SetSessionId(id);
    Store(buffer, SEQ_NUM_OFFSET, LittleEndian(INIT_SEQ_NUM, SEQ_NUM_SIZE));
  }

  method PutName(writer: TunnelFrameWriter, name: seq<byte>)
    requires writer.Valid() && writer.written == [] && writer.current == HEADER_SIZE
    requires IsName(name) && Cost(name + [0]) <= writer.end - HEADER_SIZE
    modifies writer, writer.buffer
    ensures writer.Valid() && writer.written == [name + [0]]
    ensures writer.current == HEADER_SIZE + SEPARATOR_SIZE + IDENTIFIER_SIZE
    ensures forall i :: 0 <= i < HEADER_SIZE ==> writer.buffer[i] == old(writer.buffer[i])
  {
    Store(writer.buffer, writer.current + SEPARATOR_SIZE, name + [0]);
    writer.OnDatagramWritten(IDENTIFIER_SIZE);
  }

  /** Lays out the greeting in a buffer on the stack. */
  method WriteGreeting(id: seq<byte>, name: seq<byte>) returns (frame: seq<byte>)
    requires |id| == SESSION_SIZE && IsName(name)
    ensures IsGreeting(frame, id, name) && frame == GreetingBytes(id, name)
  {
    hide GreetingBytes, Check, Tiled, EncodeBody, LittleEndian, Range;
    var buffer := new byte[EXCHANGE_BUFFER_SIZE](_ => FILLER);
    var writer := StartGreeting(buffer, id);
    ghost var header := buffer[..HEADER_SIZE];
    PutName(writer, name);
    writer.Close();
    frame := buffer[..writer.current];
    assert BodyOf(frame) == buffer[HEADER_SIZE..writer.current];
    HeaderFields(frame, header, id);
    assert frame[0..3] == writer.buffer[0..3];
    GreetingLayout(frame, id, name);
  }

  lemma HeaderFields(frame: seq<byte>, header: seq<byte>, id: seq<byte>)
    requires |frame| >= HEADER_SIZE == |header|
    requires forall i :: SESSION_OFFSET <= i < HEADER_SIZE ==> frame[i] == header[i]
    requires header[SESSION_OFFSET..SEQ_NUM_OFFSET] == id
    requires header[SEQ_NUM_OFFSET..SIGNATURE_OFFSET] == LittleEndian(INIT_SEQ_NUM, SEQ_NUM_SIZE)
    ensures SessionIdOf(frame) == id && SeqNumOf(frame) == INIT_SEQ_NUM
  {
    assert SessionIdOf(frame) == header[SESSION_OFFSET..SEQ_NUM_OFFSET];
    assert frame[SEQ_NUM_OFFSET..SIGNATURE_OFFSET] == header[SEQ_NUM_OFFSET..SIGNATURE_OFFSET];
    LittleEndianRoundTrip(INIT_SEQ_NUM, SEQ_NUM_SIZE);
  }

  /** Receives the other end's first frame. */
  method Hear(stream: TunnelFrameStream) returns (r: Exchange)
    requires stream.Valid()
    modifies stream.fd`incoming, stream.fd`stalls, stream.buffer
    ensures r == Learned(old(stream.fd.incoming))
    ensures r.Agreed? ==> stream.fd.incoming == old(stream.fd.incoming)[|ReceiveOne(old(stream.fd.incoming)).frame|..]
  {
    var received := stream.Receive();
    match received {
      case Frame(frame) =>
        CheckReadsHeaderInfo(frame, HEADER_INFO_SIZE);
        var reader := new TunnelFrameReader(stream.buffer, |frame|, 0);
        var next := reader.Next();
        if next != More {
          return Failed;
        }
        return Agreed(Identifier(frame), SessionIdOf(frame));
      case Aborted => return Exchange.Aborted;
      case _ => return Failed;
    }
  }

  /** The client names the session and expects an answer. `hello` is the frame it sends. */
  method ClientExchange(stream: TunnelFrameStream, id: seq<byte>) returns (r: Exchange, hello: seq<byte>)
    requires stream.Valid() && |id| == SESSION_SIZE
    modifies stream.fd, stream.buffer
    ensures IsGreeting(hello, id, CLIENT_NAME)
    ensures r == if |hello| <= old(stream.fd.capacity) then Learned(old(stream.fd.incoming)) else Failed
    ensures r.Agreed? ==>
              && stream.fd.outgoing == old(stream.fd.outgoing) + hello
              && stream.fd.incoming == old(stream.fd.incoming)[|ReceiveOne(old(stream.fd.incoming)).frame|..]
  {
    hello := WriteGreeting(id, CLIENT_NAME);
    var ok := stream.Send(hello);
    if !ok {
      return Failed, hello;
    }
    r := Hear(stream);
  }

  /** The server takes over the session it is told and answers. */
  method ServerExchange(stream: TunnelFrameStream) returns (r: Exchange, hello: seq<byte>)
    requires stream.Valid()
    modifies stream.fd, stream.buffer
    ensures var heard := Learned(old(stream.fd.incoming));
            && (heard.Agreed? ==>
                  && IsGreeting(hello, heard.session, SERVER_NAME)
                  && r == (if |hello| <= old(stream.fd.capacity) then heard else Failed))
            && (!heard.Agreed? ==> r == heard && stream.fd.outgoing == old(stream.fd.outgoing))
    ensures r.Agreed? ==>
              && stream.fd.outgoing == old(stream.fd.outgoing) + hello
              && stream.fd.incoming == old(stream.fd.incoming)[|ReceiveOne(old(stream.fd.incoming)).frame|..]
  {
    hello := [];
    r := Hear(stream);
    if r.Agreed? {
      hello := WriteGreeting(r.session, SERVER_NAME);
      var ok := stream.Send(hello);
      if !ok {
        return Failed, hello;
      }
    }
  }
}
