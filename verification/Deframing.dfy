/** How a byte stream falls into frames, as a function of the bytes alone. */
module Deframing {
  import opened Bytes
  import opened Lists
  import opened FrameFormat

  datatype Received =
    | Frame(frame: seq<byte>)       // a whole frame
    | Starved                       // the stream ended before a frame was complete: the read throws
    | Invalid(reason: HeaderCheck)  // the header check throws
    | Aborted                       // the frame declares fewer bytes than were already read: assertion

  /** What one `receive` makes of the bytes that are on their way. */
  function ReceiveOne(bytes: seq<byte>): Received {
    if |bytes| < HEADER_INFO_SIZE then Starved
    else if Check(bytes[..HEADER_INFO_SIZE]) != Accepted then Invalid(Check(bytes[..HEADER_INFO_SIZE]))
    else if DeclaredSize(bytes) < HEADER_INFO_SIZE then Aborted
    else if |bytes| < DeclaredSize(bytes) then Starved
    else Frame(bytes[..DeclaredSize(bytes)])
  }

  datatype Stream = Stream(frames: seq<seq<byte>>, ending: Received)

  /** What calling `receive` again and again makes of them. */
  function ReceiveMany(bytes: seq<byte>): Stream
    decreases |bytes|
  {
    match ReceiveOne(bytes)
    case Frame(f) =>
      var more := ReceiveMany(bytes[|f|..]);
      Stream([f] + more.frames, more.ending)
    case other => Stream([], other)
  }

  /** A frame that says how long it is. */
  predicate SelfDelimited(frame: seq<byte>) {
    |frame| >= HEADER_INFO_SIZE && Check(frame) == Accepted && DeclaredSize(frame) == |frame|
  }

  ghost predicate AllSelfDelimited(frames: seq<seq<byte>>) {
    forall i :: 0 <= i < |frames| ==> SelfDelimited(frames[i])
  }

  predicate ProperPrefix(part: seq<byte>, frame: seq<byte>) {
    |part| < |frame| && part == frame[..|part|]
  }

  lemma ReceiveOneFrame(frame: seq<byte>, more: seq<byte>)
    requires SelfDelimited(frame)
    ensures ReceiveOne(frame + more) == Frame(frame)
  {
    var bytes := frame + more;
    CheckReadsHeaderInfo(bytes, |frame|);
    CheckReadsHeaderInfo(bytes, HEADER_INFO_SIZE);
    assert bytes[..|frame|] == frame;
  }

  lemma ReceiveOnePart(part: seq<byte>, frame: seq<byte>)
    requires SelfDelimited(frame) && ProperPrefix(part, frame)
    ensures ReceiveOne(part) == Starved
  {
    if |part| >= HEADER_INFO_SIZE {
      CheckReadsHeaderInfo(frame, |part|);
      CheckReadsHeaderInfo(part, HEADER_INFO_SIZE);
    }
  }

  /** What decides the outcome is which frames begin like the bytes that are there. One that is complete comes
      out. Once a header is there, more bytes are awaited exactly if some frame begins like that and is longer,
      and it throws exactly if no frame does: with the reason of the header check, or on the assertion if
      the header is accepted and the size in it cannot be. */
  lemma ReceiveOneExactly(bytes: seq<byte>)
    ensures forall f :: ReceiveOne(bytes) == Frame(f) <==> SelfDelimited(f) && f <= bytes
    ensures ReceiveOne(bytes) == Starved <==>
            |bytes| < HEADER_INFO_SIZE || exists f :: SelfDelimited(f) && ProperPrefix(bytes, f)
    ensures ReceiveOne(bytes).Invalid? || ReceiveOne(bytes).Aborted? <==>
            |bytes| >= HEADER_INFO_SIZE && forall f :: SelfDelimited(f) ==> !(f <= bytes) && !ProperPrefix(bytes, f)
    ensures ReceiveOne(bytes).Invalid? ==> ReceiveOne(bytes).reason == Check(bytes) != Accepted
    ensures ReceiveOne(bytes).Aborted? ==> Check(bytes) == Accepted && DeclaredSize(bytes) < HEADER_INFO_SIZE
  {
    forall f | SelfDelimited(f) && f <= bytes ensures ReceiveOne(bytes) == Frame(f) {
      ReceiveOneFrame(f, bytes[|f|..]);
      assert bytes == f + bytes[|f|..];
    }
    forall f | SelfDelimited(f) && ProperPrefix(bytes, f) ensures ReceiveOne(bytes) == Starved {
      ReceiveOnePart(bytes, f);
    }
    if |bytes| >= HEADER_INFO_SIZE {
      CheckReadsHeaderInfo(bytes, HEADER_INFO_SIZE);
      if Check(bytes) == Accepted && DeclaredSize(bytes) >= HEADER_INFO_SIZE {
        SomeFrameBegins(bytes);
      }
    }
  }

  lemma SomeFrameBegins(bytes: seq<byte>)
    requires |bytes| >= HEADER_INFO_SIZE && Check(bytes) == Accepted && DeclaredSize(bytes) >= HEADER_INFO_SIZE
    ensures DeclaredSize(bytes) <= |bytes| ==>
              var f := bytes[..DeclaredSize(bytes)]; SelfDelimited(f) && f <= bytes && ReceiveOne(bytes) == Frame(f)
    ensures DeclaredSize(bytes) > |bytes| ==>
              ReceiveOne(bytes) == Starved && exists f :: SelfDelimited(f) && ProperPrefix(bytes, f)
  {
    CheckReadsHeaderInfo(bytes, HEADER_INFO_SIZE);
    if DeclaredSize(bytes) <= |bytes| {
      CheckReadsHeaderInfo(bytes, DeclaredSize(bytes));
    } else {
      var f: seq<byte> := bytes + seq(DeclaredSize(bytes) - |bytes|, _ => 0);
      assert f[..|bytes|] == bytes;
      CheckReadsHeaderInfo(f, |bytes|);
      assert SelfDelimited(f) && ProperPrefix(bytes, f);
    }
  }

  lemma {:induction false} ReceiveManyStep(bytes: seq<byte>, frame: seq<byte>)
    requires SelfDelimited(frame) && |frame| <= |bytes| && bytes[..|frame|] == frame
    ensures ReceiveMany(bytes).frames == [frame] + ReceiveMany(bytes[|frame|..]).frames
    ensures ReceiveMany(bytes).ending == ReceiveMany(bytes[|frame|..]).ending
  {
    ReceiveOneFrame(frame, bytes[|frame|..]);
    assert bytes == frame + bytes[|frame|..];
  }

  lemma FlattenFront(frames: seq<seq<byte>>, more: seq<byte>)
    requires frames != []
    ensures var bytes := Flatten(frames) + more; var n := |frames[0]|;
            n <= |bytes| && bytes[..n] == frames[0] && bytes[n..] == Flatten(frames[1..]) + more
  {
    assert Flatten(frames) + more == frames[0] + (Flatten(frames[1..]) + more);
  }

  /** Whole frames come out one by one, whatever follows them. */
  lemma {:induction false} ReceiveManyFrames(frames: seq<seq<byte>>, more: seq<byte>)
    requires AllSelfDelimited(frames)
    ensures ReceiveMany(Flatten(frames) + more).frames == frames + ReceiveMany(more).frames
    ensures ReceiveMany(Flatten(frames) + more).ending == ReceiveMany(more).ending
  {
    if frames == [] {
      assert Flatten(frames) + more == more;
    } else {
      ReceiveManyFrames(frames[1..], more);
      FlattenFront(frames, more);
      ReceiveManyStep(Flatten(frames) + more, frames[0]);
      assert frames == [frames[0]] + frames[1..];
      Associative([frames[0]], frames[1..], ReceiveMany(more).frames);
    }
  }

  lemma CutAfterFirst(frames: seq<seq<byte>>, n: nat)
    requires frames != [] && |frames[0]| <= n <= |Flatten(frames)|
    ensures Flatten(frames)[..n][..|frames[0]|] == frames[0]
    ensures Flatten(frames)[..n][|frames[0]|..] == Flatten(frames[1..])[..n - |frames[0]|]
  {
  }

  lemma FlattenPrefix(frames: seq<seq<byte>>, k: nat)
    requires frames != [] && k <= |frames| - 1
    ensures frames[..k + 1] == [frames[0]] + frames[1..][..k]
    ensures |Flatten(frames[..k + 1])| == |frames[0]| + |Flatten(frames[1..][..k])|
  {
    assert frames[..k + 1] == [frames[0]] + frames[1..][..k];
    assert frames[..k + 1][1..] == frames[1..][..k];
  }

  /** However much of a stream of frames has arrived, what comes out are its first frames: an unfinished
      frame at the end yields nothing. */
  lemma {:induction false} ReceiveManyPrefix(frames: seq<seq<byte>>, n: nat) returns (k: nat)
    requires AllSelfDelimited(frames)
    requires n <= |Flatten(frames)|
    ensures k <= |frames| && ReceiveMany(Flatten(frames)[..n]) == Stream(frames[..k], Starved)
    ensures n == |Flatten(frames)| ==> k == |frames|
    ensures |Flatten(frames[..k])| <= n && (k < |frames| ==> n < |Flatten(frames[..k + 1])|)
  {
    if frames == [] {
      assert frames[..0] == [];
      return 0;
    }
    var first := frames[0];
    var bytes := Flatten(frames)[..n];
    if n < |first| {
      assert bytes == first[..n];
      ReceiveOnePart(bytes, first);
      assert frames[..0] == [] && frames[..1] == [first] && Flatten([first]) == first + Flatten([]);
      return 0;
    }
    k := ReceiveManyPrefix(frames[1..], n - |first|);
    CutAfterFirst(frames, n);
    ReceiveManyStep(bytes, first);
    FlattenPrefix(frames, k);
    if k < |frames[1..]| {
      FlattenPrefix(frames, k + 1);
    }
    k := k + 1;
  }
}
