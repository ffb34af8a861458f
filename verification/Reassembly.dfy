/** Frames in order of their sequence numbers, and what such a part of a log contains. */
module Reassembly {
  import opened Bytes
  import opened Lists
  import opened FrameFormat
  import opened Scheduler
  import opened SchedulerInvariant

  function Key(frame: seq<byte>): nat {
    if |frame| >= HEADER_SIZE then SeqNumOf(frame) else 0
  }

  /** The frames are sorted by their numbers. */
  ghost predicate Sorted(frames: seq<seq<byte>>) {
    forall a, b :: 0 <= a < b < |frames| ==> Key(frames[a]) <= Key(frames[b])
  }

  ghost predicate Ascending(frames: seq<seq<byte>>) {
    forall a, b :: 0 <= a < b < |frames| ==> Key(frames[a]) < Key(frames[b])
  }

  ghost predicate Distinct(frames: seq<seq<byte>>) {
    forall a, b :: 0 <= a < b < |frames| ==> Key(frames[a]) != Key(frames[b])
  }

  function Occurrences(frames: seq<seq<byte>>, x: seq<byte>): nat {
    if frames == [] then 0
    else Occurrences(frames[..|frames| - 1], x) + if frames[|frames| - 1] == x then 1 else 0
  }

  /** The same frames, each as often, in any order. */
  ghost predicate Rearranged(a: seq<seq<byte>>, b: seq<seq<byte>>) {
    forall x :: Occurrences(a, x) == Occurrences(b, x)
  }

  lemma {:induction false} OccursIn(frames: seq<seq<byte>>, x: seq<byte>)
    ensures Occurrences(frames, x) > 0 <==> x in frames
  {
    if frames != [] {
      OccursIn(frames[..|frames| - 1], x);
      assert frames == frames[..|frames| - 1] + [frames[|frames| - 1]];
    }
  }

  lemma SameMembers(a: seq<seq<byte>>, b: seq<seq<byte>>)
    requires Rearranged(a, b)
    ensures forall x :: x in a <==> x in b
  {
    forall x ensures x in a <==> x in b {
      assert Occurrences(a, x) == Occurrences(b, x);
      OccursIn(a, x);
      OccursIn(b, x);
    }
  }

  lemma {:induction false} DistinctOccurOnce(frames: seq<seq<byte>>, x: seq<byte>)
    requires Distinct(frames)
    ensures Occurrences(frames, x) <= 1
  {
    if frames != [] {
      var front := frames[..|frames| - 1];
      DistinctOccurOnce(front, x);
      OccursIn(front, x);
    }
  }

  lemma {:induction false} TwoOccurrences(frames: seq<seq<byte>>, a: nat, b: nat)
    requires a < b < |frames| && frames[a] == frames[b]
    ensures Occurrences(frames, frames[a]) >= 2
  {
    var front := frames[..|frames| - 1];
    if b == |frames| - 1 {
      OccursIn(front, frames[a]);
      assert front[a] == frames[a];
    } else {
      TwoOccurrences(front, a, b);
    }
  }

  // ----- sorted frames of a log -----

  /** The frame is the one its number stands for in the log. */
  predicate Logged(log: seq<Entry>, frame: seq<byte>) {
    |frame| >= HEADER_SIZE && 1 <= SeqNumOf(frame) <= |log| && log[SeqNumOf(frame) - 1].frame == frame
  }

  ghost predicate AllLogged(log: seq<Entry>, frames: seq<seq<byte>>) {
    forall x :: x in frames ==> Logged(log, x)
  }

  lemma NoneLogged(log: seq<Entry>, frames: seq<seq<byte>>)
    requires AllLogged(log, frames)
    ensures log == [] ==> frames == []
  {
    if frames != [] {
      assert Logged(log, frames[0]);
    }
  }

  /** The batches, among these frames, that came from queue t. */
  function BatchesFrom(log: seq<Entry>, frames: seq<seq<byte>>, t: nat): seq<seq<Datagram>> {
    if frames == [] then []
    else
      var last := frames[|frames| - 1];
      BatchesFrom(log, frames[..|frames| - 1], t)
      + if Logged(log, last) && log[SeqNumOf(last) - 1].sender == t then [DatagramsOf(last)] else []
  }

  lemma {:induction false} BatchesFromShorter(log: seq<Entry>, frames: seq<seq<byte>>, t: nat)
    requires log != [] && AllLogged(log[..|log| - 1], frames)
    ensures AllLogged(log, frames) && BatchesFrom(log, frames, t) == BatchesFrom(log[..|log| - 1], frames, t)
  {
    if frames != [] {
      var front := frames[..|frames| - 1];
      assert forall x :: x in front ==> x in frames;
      BatchesFromShorter(log, front, t);
      assert frames[|frames| - 1] in frames;
      assert frames == front + [frames[|frames| - 1]];
    }
  }

  /** If the last number is not among them, the frames are in the log without its last entry. */
  lemma {:induction false} LoggedShorter(log: seq<Entry>, frames: seq<seq<byte>>)
    requires log != [] && AllLogged(log, frames) && forall x :: x in frames ==> Key(x) != |log|
    ensures AllLogged(log[..|log| - 1], frames)
  {
    forall x | x in frames ensures Logged(log[..|log| - 1], x) {
      assert Logged(log, x) && Key(x) == SeqNumOf(x);
    }
  }

  /** In ascending order only the last frame can have the last number. */
  lemma {:induction false} OnlyLast(log: seq<Entry>, frames: seq<seq<byte>>)
    requires log != [] && AllLogged(log, frames) && Ascending(frames)
    requires frames != [] && Key(frames[|frames| - 1]) == |log|
    ensures AllLogged(log[..|log| - 1], frames[..|frames| - 1]) && Ascending(frames[..|frames| - 1])
    ensures frames[|frames| - 1] == log[|log| - 1].frame
  {
    var front, last := frames[..|frames| - 1], frames[|frames| - 1];
    assert last in frames && Logged(log, last);
    forall x | x in front ensures x in frames && Key(x) != |log| {
      var j :| 0 <= j < |front| && front[j] == x;
      assert frames[j] == x;
    }
    LoggedShorter(log, front);
  }

  lemma {:induction false} NotLast(log: seq<Entry>, frames: seq<seq<byte>>)
    requires AllLogged(log, frames) && Ascending(frames)
    requires frames != [] ==> Key(frames[|frames| - 1]) != |log|
    ensures forall x :: x in frames ==> Key(x) != |log|
  {
    forall x | x in frames ensures Key(x) != |log| {
      var j :| 0 <= j < |frames| && frames[j] == x;
      assert frames[|frames| - 1] in frames && Logged(log, frames[|frames| - 1]);
    }
  }

  /** Sorted frames of a log give, for each queue, an in-order part of what that queue sent. */
  lemma {:induction false} SortedIsSubsequence(log: seq<Entry>, frames: seq<seq<byte>>, t: nat)
    requires AllLogged(log, frames) && Ascending(frames)
    requires forall n :: 0 <= n < |log| ==> |log[n].frame| >= HEADER_SIZE
    ensures Subsequence(BatchesFrom(log, frames, t), SentBy(log, t))
    decreases |log|
  {
    NoneLogged(log, frames);
    if log != [] {
      var front := log[..|log| - 1];
      if frames != [] && Key(frames[|frames| - 1]) == |log| {
        var earlier := frames[..|frames| - 1];
        OnlyLast(log, frames);
        SortedIsSubsequence(front, earlier, t);
        BatchesFromShorter(log, earlier, t);
        assert Logged(log, frames[|frames| - 1]);
        SubsequenceReflexive(LastBatch(log, t));
        SubsequenceAppend(BatchesFrom(log, earlier, t), SentBy(front, t), LastBatch(log, t), LastBatch(log, t));
      } else {
        NotLast(log, frames);
        LoggedShorter(log, frames);
        SortedIsSubsequence(front, frames, t);
        BatchesFromShorter(log, frames, t);
        SubsequenceAppend(BatchesFrom(log, frames, t), SentBy(front, t), [], LastBatch(log, t));
        assert BatchesFrom(log, frames, t) + [] == BatchesFrom(log, frames, t);
      }
    }
  }

  /** What the last entry of a log contributes to queue t. */
  function LastBatch(log: seq<Entry>, t: nat): seq<seq<Datagram>>
    requires log != []
  {
    var e := log[|log| - 1];
    if e.sender == t && |e.frame| >= HEADER_SIZE then [DatagramsOf(e.frame)] else []
  }

  lemma FrontIsThere(log: seq<Entry>, frames: seq<seq<byte>>)
    requires log != [] && frames != [] && Key(frames[|frames| - 1]) == |log|
    requires forall n :: 0 <= n < |log| ==>
               |log[n].frame| >= HEADER_SIZE && log[n].frame in frames && Key(log[n].frame) == n + 1
    ensures var front, earlier := log[..|log| - 1], frames[..|frames| - 1];
            forall n :: 0 <= n < |front| ==>
              |front[n].frame| >= HEADER_SIZE && front[n].frame in earlier && Key(front[n].frame) == n + 1
  {
    var front, earlier := log[..|log| - 1], frames[..|frames| - 1];
    forall n | 0 <= n < |front|
      ensures |front[n].frame| >= HEADER_SIZE && front[n].frame in earlier && Key(front[n].frame) == n + 1
    {
      assert front[n] == log[n] && log[n].frame in frames;
      assert frames == earlier + [frames[|frames| - 1]];
    }
  }

  /** If every number of the log is there, so is everything every queue sent. */
  lemma {:induction false} SortedIsComplete(log: seq<Entry>, frames: seq<seq<byte>>, t: nat)
    requires AllLogged(log, frames) && Ascending(frames)
    requires forall n :: 0 <= n < |log| ==>
               |log[n].frame| >= HEADER_SIZE && log[n].frame in frames && Key(log[n].frame) == n + 1
    ensures BatchesFrom(log, frames, t) == SentBy(log, t)
    decreases |log|
  {
    NoneLogged(log, frames);
    if log != [] {
      var front := log[..|log| - 1];
      assert log[|log| - 1].frame in frames && Key(log[|log| - 1].frame) == |log|;
      if frames == [] || Key(frames[|frames| - 1]) != |log| {
        NotLast(log, frames);
        assert false;
      }
      var earlier := frames[..|frames| - 1];
      OnlyLast(log, frames);
      FrontIsThere(log, frames);
      SortedIsComplete(front, earlier, t);
      BatchesFromShorter(log, earlier, t);
      assert Logged(log, frames[|frames| - 1]);
    }
  }
}
