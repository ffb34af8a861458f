/** Sequences of sequences, subsequences and filters, as the specifications use them.

    A queue's datagrams are a flattened list of batches; what a receiver gets of them is a subsequence;
    and one queue's part of a log is a filter of it. Nothing here is particular to the tunnel. */
module Lists {

  function Flatten<T>(lists: seq<seq<T>>): seq<T> {
    if lists == [] then [] else lists[0] + Flatten(lists[1..])
  }

  lemma {:induction false} FlattenAppend<T>(front: seq<seq<T>>, back: seq<seq<T>>)
    ensures Flatten(front + back) == Flatten(front) + Flatten(back)
  {
    if front == [] {
      assert front + back == back;
    } else {
      FlattenAppend(front[1..], back);
      assert (front + back)[1..] == front[1..] + back;
      Associative(front[0], Flatten(front[1..]), Flatten(back));
    }
  }

  lemma FlattenSnoc<T>(lists: seq<seq<T>>, last: seq<T>)
    ensures Flatten(lists + [last]) == Flatten(lists) + last
  {
    FlattenAppend(lists, [last]);
    assert Flatten([last]) == last;
  }

  /** `part` can be obtained from `whole` by leaving elements out. */
  ghost predicate Subsequence<T>(part: seq<T>, whole: seq<T>) {
    || part == []
    || (whole != [] && part[0] == whole[0] && Subsequence(part[1..], whole[1..]))
    || (whole != [] && Subsequence(part, whole[1..]))
  }

  lemma {:induction false} SubsequenceReflexive<T>(s: seq<T>)
    ensures Subsequence(s, s)
  {
    if s != [] {
      SubsequenceReflexive(s[1..]);
    }
  }

  lemma {:induction false} SubsequenceAppend<T>(part1: seq<T>, whole1: seq<T>, part2: seq<T>, whole2: seq<T>)
    requires Subsequence(part1, whole1) && Subsequence(part2, whole2)
    ensures Subsequence(part1 + part2, whole1 + whole2)
    decreases |part1| + |whole1|
  {
    if whole1 == [] {
      assert part1 + part2 == part2 && whole1 + whole2 == whole2;
    } else if part1 != [] && part1[0] == whole1[0] && Subsequence(part1[1..], whole1[1..]) {
      SubsequenceAppend(part1[1..], whole1[1..], part2, whole2);
      assert (part1 + part2)[1..] == part1[1..] + part2;
      assert (whole1 + whole2)[1..] == whole1[1..] + whole2;
    } else {
      SubsequenceAppend(part1, whole1[1..], part2, whole2);
      assert (whole1 + whole2)[1..] == whole1[1..] + whole2;
    }
  }

  lemma {:induction false} SubsequenceTransitive<T>(a: seq<T>, b: seq<T>, c: seq<T>)
    requires Subsequence(a, b) && Subsequence(b, c)
    ensures Subsequence(a, c)
    decreases |a| + |b| + |c|
  {
    if a == [] || b == [] {
    } else if b[0] == c[0] && Subsequence(b[1..], c[1..]) {
      if a[0] == b[0] && Subsequence(a[1..], b[1..]) {
        SubsequenceTransitive(a[1..], b[1..], c[1..]);
      } else {
        SubsequenceTransitive(a, b[1..], c[1..]);
      }
    } else {
      SubsequenceTransitive(a, b, c[1..]);
    }
  }

  /** Leaving out whole lists leaves out their elements. */
  lemma {:induction false} SubsequenceFlatten<T>(part: seq<seq<T>>, whole: seq<seq<T>>)
    requires Subsequence(part, whole)
    ensures Subsequence(Flatten(part), Flatten(whole))
    decreases |part| + |whole|
  {
    if part == [] {
    } else if part[0] == whole[0] && Subsequence(part[1..], whole[1..]) {
      SubsequenceFlatten(part[1..], whole[1..]);
      SubsequenceReflexive(part[0]);
      SubsequenceAppend(part[0], whole[0], Flatten(part[1..]), Flatten(whole[1..]));
    } else {
      SubsequenceFlatten(part, whole[1..]);
      SubsequenceAppend([], whole[0], Flatten(part), Flatten(whole[1..]));
      assert [] + Flatten(part) == Flatten(part);
    }
  }

  lemma Associative<T>(a: seq<T>, b: seq<T>, c: seq<T>)
    ensures (a + b) + c == a + (b + c)
  {
  }

  /** Two cuts of the same list put together. */
  lemma FrontAndBack<T>(a: seq<T>, b: seq<T>, c: seq<T>, d: seq<T>, whole: seq<T>, n: nat)
    requires n <= |whole| && a + b == whole[..n] && c + d == whole[n..]
    ensures a + b + c + d == whole
  {
  }
}
