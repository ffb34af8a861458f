/** The bytes of a tunnel frame: header, datagram records, and the check made on receipt. */
module FrameFormat {
  import opened Bytes
  import opened Lists

  // ----- layout -----

  const HEADER_INFO_SIZE: nat := 6
  const HEADER_SIZE: nat := 158
  const SEPARATOR_SIZE: nat := 2
  const MIN_FRAME_SIZE: nat := HEADER_SIZE + SEPARATOR_SIZE
  const MAX_FRAME_SIZE: nat := 4096

  const MAGIC: seq<byte> := [0x52, 0x50, 0x49]  // 'R', 'P', 'I'
  const VERSION: byte := 1
  const INIT_SEQ_NUM: nat := 0

  const DESC_OFFSET: nat := 3       // version in the two low bits, flags in the six high bits
  const SIZE_OFFSET: nat := 4
  const SESSION_OFFSET: nat := 6
  const SESSION_SIZE: nat := 16
  const SEQ_NUM_OFFSET: nat := 22
  const SEQ_NUM_SIZE: nat := 8
  const SIGNATURE_OFFSET: nat := 30

  type Datagram = seq<byte>

  function DeclaredSize(buf: seq<byte>): (size: nat)
    requires |buf| >= HEADER_INFO_SIZE
  {
    Word(buf[SIZE_OFFSET], buf[SIZE_OFFSET + 1])
  }

  function SessionIdOf(buf: seq<byte>): seq<byte>
    requires |buf| >= HEADER_SIZE
  {
    buf[SESSION_OFFSET..SESSION_OFFSET + SESSION_SIZE]
  }

  function SeqNumOf(buf: seq<byte>): nat
    requires |buf| >= HEADER_SIZE
  {
    FromLittleEndian(buf[SEQ_NUM_OFFSET..SEQ_NUM_OFFSET + SEQ_NUM_SIZE])
  }

  // ----- the check made on every header received -----

  datatype HeaderCheck = Accepted | TooShort | BadMagic | BadVersion | BadSize

  /** What the receiver accepts. Only the first byte of the magic is compared: the `!= 0` of the
      comparison sits inside the length argument, which makes the length 1. */
  function Check(buf: seq<byte>): HeaderCheck {
    if |buf| < HEADER_INFO_SIZE then TooShort
    else if buf[0] != MAGIC[0] then BadMagic
    else if buf[DESC_OFFSET] % 4 != VERSION then BadVersion
    else if DeclaredSize(buf) > MAX_FRAME_SIZE then BadSize
    else Accepted
  }

  /** What the comment on the magic field asks for: all three bytes fixed. */
  function IntendedCheck(buf: seq<byte>): HeaderCheck {
    if |buf| < HEADER_INFO_SIZE then TooShort
    else if buf[..3] != MAGIC then BadMagic
    else if buf[DESC_OFFSET] % 4 != VERSION then BadVersion
    else if DeclaredSize(buf) > MAX_FRAME_SIZE then BadSize
    else Accepted
  }

  /** The two checks differ on exactly the headers that start with 'R' but not with "RPI". */
  lemma CheckMeetsIntent(buf: seq<byte>)
    ensures Check(buf) == IntendedCheck(buf)
       <==> !(|buf| >= HEADER_INFO_SIZE && buf[0] == MAGIC[0] && buf[1..3] != MAGIC[1..])
  {
    if |buf| >= HEADER_INFO_SIZE {
      assert buf[..3] == [buf[0]] + buf[1..3];
      assert MAGIC == [MAGIC[0]] + MAGIC[1..];
      assert buf[..3] == MAGIC ==> buf[1..3] == MAGIC[1..];
    }
  }

  lemma CheckAcceptsWrongMagic()
    ensures Check([0x52, 0x41, 0x57, 0x01, 0xA0, 0x00]) == Accepted
    ensures IntendedCheck([0x52, 0x41, 0x57, 0x01, 0xA0, 0x00]) == BadMagic
  {
    var buf: seq<byte> := [0x52, 0x41, 0x57, 0x01, 0xA0, 0x00];
    assert buf[..3][1] != MAGIC[1];
  }

  /** The check reads nothing but the first six bytes. */
  lemma CheckReadsHeaderInfo(buf: seq<byte>, n: nat)
    requires HEADER_INFO_SIZE <= n <= |buf|
    ensures Check(buf[..n]) == Check(buf) && DeclaredSize(buf[..n]) == DeclaredSize(buf)
  {
  }

  /** The first of the things that are wrong is reported. */
  lemma CheckReportsFirst(buf: seq<byte>)
    ensures Check(buf) == TooShort <==> |buf| < HEADER_INFO_SIZE
    ensures Check(buf) == BadMagic <==> |buf| >= HEADER_INFO_SIZE && buf[0] != 0x52
    ensures Check(buf) == BadSize ==> DeclaredSize(buf) > 4096 && buf[0] == 0x52 && buf[DESC_OFFSET] % 4 == 1
  {
  }

  /** Of the byte that holds both, the check looks at the version alone: flags are never a reason to refuse. */
  lemma FlagsAreIgnored(buf: seq<byte>, version: nat, flags: nat)
    requires |buf| >= HEADER_INFO_SIZE && version < 4 && flags < 64
    ensures Check(buf[DESC_OFFSET := version + 4 * flags]) == Check(buf[DESC_OFFSET := version])
    ensures Check(buf[DESC_OFFSET := version + 4 * flags]) == Accepted ==> version == 1
  {
    assert (version + 4 * flags) % 4 == version;
  }

  // ----- datagram records -----

  function Separator(size: nat): seq<byte> {
    WordBytes(size)
  }

  /** The body of a frame: each datagram after a separator that carries its size. */
  function EncodeBody(datagrams: seq<Datagram>): seq<byte> {
    if datagrams == [] then []
    else Separator(|datagrams[0]|) + datagrams[0] + EncodeBody(datagrams[1..])
  }

  function Cost(d: Datagram): nat { SEPARATOR_SIZE + |d| }

  function TotalCost(datagrams: seq<Datagram>): nat {
    if datagrams == [] then 0 else Cost(datagrams[0]) + TotalCost(datagrams[1..])
  }

  /** Each size survives being stored in the two bytes of a separator. */
  ghost predicate Sized(datagrams: seq<Datagram>) {
    forall i :: 0 <= i < |datagrams| ==> |datagrams[i]| < 0x1_0000
  }

  function FirstSize(body: seq<byte>): nat
    requires |body| >= SEPARATOR_SIZE
  {
    Word(body[0], body[1])
  }

  predicate StartsWithRecord(body: seq<byte>) {
    |body| >= SEPARATOR_SIZE && SEPARATOR_SIZE + FirstSize(body) <= |body|
  }

  datatype Split = Split(records: seq<Datagram>, rest: seq<byte>)

  /** The complete records at the front of a body, and what is left over. */
  function SplitBody(body: seq<byte>): Split
    decreases |body|
  {
    if StartsWithRecord(body) then
      var n := SEPARATOR_SIZE + FirstSize(body);
      var tail := SplitBody(body[n..]);
      Split([body[SEPARATOR_SIZE..n]] + tail.records, tail.rest)
    else
      Split([], body)
  }

  /** The body consists of complete records and nothing else. */
  predicate Tiled(body: seq<byte>) {
    SplitBody(body).rest == []
  }

  lemma {:induction false} EncodeBodyAppend(front: seq<Datagram>, back: seq<Datagram>)
    ensures EncodeBody(front + back) == EncodeBody(front) + EncodeBody(back)
  {
    if front == [] {
      assert front + back == back;
    } else {
      EncodeBodyAppend(front[1..], back);
      assert (front + back)[1..] == front[1..] + back;
      Associative(Separator(|front[0]|) + front[0], EncodeBody(front[1..]), EncodeBody(back));
    }
  }

  lemma {:induction false} TotalCostAppend(front: seq<Datagram>, back: seq<Datagram>)
    ensures TotalCost(front + back) == TotalCost(front) + TotalCost(back)
  {
    if front == [] {
      assert front + back == back;
    } else {
      TotalCostAppend(front[1..], back);
      assert (front + back)[1..] == front[1..] + back;
    }
  }

  lemma {:induction false} EncodeBodyLength(datagrams: seq<Datagram>)
    ensures |EncodeBody(datagrams)| == TotalCost(datagrams)
  {
    if datagrams != [] {
      EncodeBodyLength(datagrams[1..]);
    }
  }

  lemma {:induction false} FitImpliesSized(datagrams: seq<Datagram>)
    requires TotalCost(datagrams) < 0x1_0000
    ensures Sized(datagrams)
  {
    if datagrams != [] {
      FitImpliesSized(datagrams[1..]);
      assert forall i :: 1 <= i < |datagrams| ==> datagrams[i] == datagrams[1..][i - 1];
    }
  }

  lemma {:induction false} EncodeBodyCons(first: Datagram, more: seq<Datagram>)
    ensures EncodeBody([first] + more) == Separator(|first|) + first + EncodeBody(more)
    ensures Sized([first] + more) <==> |first| < 0x1_0000 && Sized(more)
  {
    var all := [first] + more;
    assert all[1..] == more;
    assert forall i :: 0 <= i < |more| ==> more[i] == all[i + 1];
  }

  /** Splitting loses no byte: re-encoding the records and appending the rest gives back the body. */
  lemma {:induction false} SplitBodyReproduces(body: seq<byte>)
    ensures var s := SplitBody(body);
            EncodeBody(s.records) + s.rest == body && Sized(s.records) && !StartsWithRecord(s.rest)
    decreases |body|
  {
    if StartsWithRecord(body) {
      var n := SEPARATOR_SIZE + FirstSize(body);
      var first := body[SEPARATOR_SIZE..n];
      SplitBodyReproduces(body[n..]);
      var tail := SplitBody(body[n..]);
      EncodeBodyCons(first, tail.records);
      assert Separator(|first|) == body[..SEPARATOR_SIZE] by {
        WordInverse(body[0], body[1]);
      }
      FrontAndBack(body[..SEPARATOR_SIZE], first, EncodeBody(tail.records), tail.rest, body, n);
    }
  }

  lemma RecordAtFront(d: Datagram, more: seq<byte>)
    requires |d| < 0x1_0000
    ensures var body := Separator(|d|) + d + more;
            StartsWithRecord(body) && FirstSize(body) == |d|
            && body[SEPARATOR_SIZE..SEPARATOR_SIZE + |d|] == d && body[SEPARATOR_SIZE + |d|..] == more
  {
  }

  /** There is only one way to read a body: whatever was encoded is what is split off. */
  lemma {:induction false} SplitBodyUnique(datagrams: seq<Datagram>, rest: seq<byte>)
    requires Sized(datagrams) && !StartsWithRecord(rest)
    ensures SplitBody(EncodeBody(datagrams) + rest) == Split(datagrams, rest)
  {
    if datagrams == [] {
      assert EncodeBody(datagrams) + rest == rest;
    } else {
      var d := datagrams[0];
      var more := EncodeBody(datagrams[1..]) + rest;
      RecordAtFront(d, more);
      assert EncodeBody(datagrams) + rest == Separator(|d|) + d + more;
      SplitBodyUnique(datagrams[1..], rest);
      assert [d] + datagrams[1..] == datagrams;
    }
  }

  /** A body is accepted exactly when it is the encoding of some list of datagrams. */
  lemma TiledExactlyWhenEncoded(body: seq<byte>)
    ensures Tiled(body) <==> exists datagrams :: Sized(datagrams) && EncodeBody(datagrams) == body
  {
    SplitBodyReproduces(body);
    if Tiled(body) {
      var s := SplitBody(body);
      assert EncodeBody(s.records) + s.rest == EncodeBody(s.records);
      assert Sized(s.records) && EncodeBody(s.records) == body;
    }
    if datagrams :| Sized(datagrams) && EncodeBody(datagrams) == body {
      SplitBodyUnique(datagrams, []);
      assert EncodeBody(datagrams) + [] == body;
    }
  }

  // ----- whole frames -----

  /** A frame as a closed writer leaves it: accepted, and as long as it declares. */
  predicate IsFrame(frame: seq<byte>) {
    |frame| >= HEADER_SIZE && Check(frame) == Accepted && DeclaredSize(frame) == |frame|
  }

  function BodyOf(frame: seq<byte>): seq<byte>
    requires |frame| >= HEADER_SIZE
  {
    frame[HEADER_SIZE..]
  }

  function DatagramsOf(frame: seq<byte>): seq<Datagram>
    requires |frame| >= HEADER_SIZE
  {
    SplitBody(BodyOf(frame)).records
  }

  /** Storing a sequence number into a closed frame. */
  function Stamp(frame: seq<byte>, seqNum: nat): seq<byte>
    requires |frame| >= HEADER_SIZE
  {
    frame[..SEQ_NUM_OFFSET] + LittleEndian(seqNum, SEQ_NUM_SIZE) + frame[SIGNATURE_OFFSET..]
  }

  /** Stamping sets the number (if it fits 64 bits) and leaves size, session and datagrams alone. */
  lemma StampKeepsFrame(frame: seq<byte>, seqNum: nat)
    requires IsFrame(frame)
    ensures var f := Stamp(frame, seqNum);
            && IsFrame(f) && |f| == |frame|
            && SessionIdOf(f) == SessionIdOf(frame) && BodyOf(f) == BodyOf(frame)
            && (seqNum < Range(SEQ_NUM_SIZE) ==> SeqNumOf(f) == seqNum)
  {
    var f := Stamp(frame, seqNum);
    assert f[SEQ_NUM_OFFSET..SEQ_NUM_OFFSET + SEQ_NUM_SIZE] == LittleEndian(seqNum, SEQ_NUM_SIZE);
    if seqNum < Range(SEQ_NUM_SIZE) {
      LittleEndianRoundTrip(seqNum, SEQ_NUM_SIZE);
    }
  }
}
