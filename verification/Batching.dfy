/** Splitting a queue of datagrams into frames, and why filling each frame greedily is best. */
module Batching {
  import opened Lists
  import opened FrameFormat

  /** Separators and payload that a frame has room for. */
  const CAPACITY: nat := MAX_FRAME_SIZE - HEADER_SIZE

  /** The largest datagram that fits a frame at all. */
  const MAX_DATAGRAM: nat := CAPACITY - SEPARATOR_SIZE

  type Batch = seq<Datagram>

  ghost predicate AllFit(batches: seq<Batch>) {
    forall i :: 0 <= i < |batches| ==> TotalCost(batches[i]) <= CAPACITY
  }

  ghost predicate NoneEmpty(batches: seq<Batch>) {
    forall i :: 0 <= i < |batches| ==> batches[i] != []
  }

  /** The frame was closed only because the datagram that came next did not fit. */
  ghost predicate FullBefore(batch: Batch, next: Batch) {
    next != [] && TotalCost(batch) + Cost(next[0]) > CAPACITY
  }

  /** The frames flagged were closed only because the datagram that came next did not fit. The last frame
      has no successor and needs no flag. */
  ghost predicate Greedy(batches: seq<Batch>, full: seq<bool>) {
    && |batches| <= |full| + 1
    && forall i :: 0 <= i < |batches| - 1 && full[i] ==> FullBefore(batches[i], batches[i + 1])
  }

  /** How many frames were closed early. */
  function NotFull(full: seq<bool>): nat {
    if full == [] then 0 else (if full[0] then 0 else 1) + NotFull(full[1..])
  }

  lemma {:induction false} NotFullAppend(a: seq<bool>, b: seq<bool>)
    ensures NotFull(a + b) == NotFull(a) + NotFull(b)
  {
    if a == [] {
      assert a + b == b;
    } else {
      NotFullAppend(a[1..], b);
      assert (a + b)[1..] == a[1..] + b;
    }
  }

  /** A run of datagrams cut out of a longer one costs no more. */
  lemma {:induction false} CostOfPart(whole: seq<Datagram>, from: nat, to: nat)
    requires from <= to <= |whole|
    ensures TotalCost(whole[from..to]) <= TotalCost(whole)
  {
    TotalCostAppend(whole[..from], whole[from..]);
    TotalCostAppend(whole[from..to], whole[to..]);
    assert whole[..from] + whole[from..] == whole;
    assert whole[from..to] + whole[to..] == whole[from..];
  }

  lemma {:induction false} FlattenTwo(batches: seq<Batch>)
    requires |batches| >= 2
    ensures Flatten(batches) == batches[0] + (batches[1] + Flatten(batches[2..]))
  {
    assert batches[1..][1..] == batches[2..];
  }

  lemma {:induction false} CostOfOverfull(batch: Batch, next: Batch)
    requires FullBefore(batch, next)
    ensures TotalCost(batch + [next[0]]) > CAPACITY
  {
    TotalCostAppend(batch, [next[0]]);
    assert TotalCost([next[0]]) == Cost(next[0]) + TotalCost([]);
  }

  lemma {:induction false} PartOfBoth<T>(extra: seq<T>, b0: seq<T>, b1: seq<T>, more: seq<T>, first: seq<T>,
                                         others: seq<T>)
    requires b1 != [] && first + others == extra + (b0 + (b1 + more))
    requires |first| > |extra| + |b0|
    ensures first[|extra|..|extra| + |b0| + 1] == b0 + [b1[0]]
  {
    var n := |extra| + |b0| + 1;
    assert first[|extra|..n] == (first + others)[|extra|..n];
    assert (extra + (b0 + (b1 + more)))[|extra|..n] == (b0 + (b1 + more))[..n - |extra|];
  }

  /** Another split cannot put more into its first frame than what greedy has passed by then. */
  lemma {:induction false} FirstFrameNotAhead(extra: seq<Datagram>, greedy: seq<Batch>, first: Batch,
                                              others: seq<Datagram>)
    requires |greedy| >= 2 && FullBefore(greedy[0], greedy[1])
    requires TotalCost(first) <= CAPACITY
    requires first + others == extra + Flatten(greedy)
    ensures |first| <= |extra| + |greedy[0]|
  {
    if |first| > |extra| + |greedy[0]| {
      FlattenTwo(greedy);
      PartOfBoth(extra, greedy[0], greedy[1], Flatten(greedy[2..]), first, others);
      CostOfPart(first, |extra|, |extra| + |greedy[0]| + 1);
      CostOfOverfull(greedy[0], greedy[1]);
    }
  }

  /** A greedy split of what is left needs no more frames than any split of at least as much, plus one for
      each frame that was closed early. */
  lemma {:induction false} GreedyKeepsUp(extra: seq<Datagram>, greedy: seq<Batch>, full: seq<bool>, other: seq<Batch>)
    requires NoneEmpty(greedy) && Greedy(greedy, full) && AllFit(other)
    requires Flatten(other) == extra + Flatten(greedy)
    ensures |greedy| <= |other| + NotFull(full)
    decreases |greedy|
  {
    if greedy != [] {
      assert |Flatten(greedy)| >= |greedy[0]| > 0;
      assert other != [];
      if |greedy| > 1 {
        var passed := extra + greedy[0];
        assert extra + Flatten(greedy) == passed + Flatten(greedy[1..]);
        if full[0] {
          var first, others := other[0], Flatten(other[1..]);
          FirstFrameNotAhead(extra, greedy, first, others);
          assert others == (first + others)[|first|..];
          assert others == passed[|first|..] + Flatten(greedy[1..]);
          GreedyKeepsUp(passed[|first|..], greedy[1..], full[1..], other[1..]);
        } else {
          GreedyKeepsUp(passed, greedy[1..], full[1..], other);
        }
      }
    }
  }

  /** No order-preserving split of the same datagrams uses fewer frames than a greedy one, and closing a
      frame early costs at most one more. */
  lemma {:induction false} GreedyIsOptimal(greedy: seq<Batch>, full: seq<bool>, other: seq<Batch>)
    requires NoneEmpty(greedy) && Greedy(greedy, full)
    requires AllFit(other) && Flatten(other) == Flatten(greedy)
    ensures |greedy| <= |other| + NotFull(full)
  {
    assert [] + Flatten(greedy) == Flatten(greedy);
    GreedyKeepsUp([], greedy, full, other);
  }

  /** A full frame and its successor together carry more than one frame could. */
  lemma {:induction false} NeighboursOverflow(greedy: seq<Batch>, full: seq<bool>, i: nat)
    requires Greedy(greedy, full) && i + 1 < |greedy| && full[i]
    ensures TotalCost(greedy[i]) + TotalCost(greedy[i + 1]) > CAPACITY
  {
    assert FullBefore(greedy[i], greedy[i + 1]);
  }

  /** Hence the number of frames is bounded by the total cost and the number of frames closed early. */
  lemma {:induction false} GreedyBound(greedy: seq<Batch>, full: seq<bool>)
    requires Greedy(greedy, full)
    ensures |greedy| <= 2 * (TotalCost(Flatten(greedy)) / (CAPACITY + 1)) + 1 + NotFull(full)
    decreases |greedy|
  {
    if |greedy| >= 2 {
      if full[0] {
        var rest, flags := greedy[2..], if |full| == 1 then [] else full[2..];
        GreedyBound(rest, flags);
        NeighboursOverflow(greedy, full, 0);
        FlattenTwo(greedy);
        TotalCostAppend(greedy[0], greedy[1] + Flatten(rest));
        TotalCostAppend(greedy[1], Flatten(rest));
        Quotient(TotalCost(Flatten(greedy)), TotalCost(Flatten(rest)));
        assert |full| >= 2 ==> full[1..][1..] == flags;
      } else {
        GreedyBound(greedy[1..], full[1..]);
        TotalCostAppend(greedy[0], Flatten(greedy[1..]));
        QuotientGrows(TotalCost(Flatten(greedy)), TotalCost(Flatten(greedy[1..])));
      }
    }
  }

  lemma QuotientGrows(total: nat, rest: nat)
    requires total >= rest
    ensures total / (CAPACITY + 1) >= rest / (CAPACITY + 1)
  {
  }

  lemma {:induction false} Quotient(total: nat, rest: nat)
    requires total >= rest + CAPACITY + 1
    ensures total / (CAPACITY + 1) >= rest / (CAPACITY + 1) + 1
  {
  }

  /** A frame closed as full falls short of the maximum by less than a separator and one datagram. */
  lemma {:induction false} FullFrameSize(batch: Batch, next: Batch, mtu: nat)
    requires FullBefore(batch, next) && |next[0]| <= mtu
    ensures HEADER_SIZE + TotalCost(batch) + mtu >= MAX_FRAME_SIZE - 1
  {
  }
}
