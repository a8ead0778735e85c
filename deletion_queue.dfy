/** The deletion queue: a LIFO ledger of release actions. Entries are pushed at
    the back; `Flush` runs them from the back to the front and then empties
    the ledger. The actions themselves are tags that the owner interprets. */
module DeletionQueues {

  /** The sequence `s` in reverse order. */
  function Reversed<T>(s: seq<T>): (r: seq<T>)
    ensures |r| == |s|
  {
    if s == [] then [] else Reversed(s[1..]) + [s[0]]
  }

  /** Position `k` of the reversal holds the `k`-th element counted from the back. */
  lemma {:induction false} ReversedAt<T>(s: seq<T>, k: nat)
    requires k < |s|
    ensures Reversed(s)[k] == s[|s| - 1 - k]
  {
    if k < |s| - 1 {
      ReversedAt(s[1..], k);
    }
  }

  /** Reversal distributes over concatenation, swapping the parts. */
  lemma {:induction false} ReversedAppend<T>(a: seq<T>, b: seq<T>)
    ensures Reversed(a + b) == Reversed(b) + Reversed(a)
  {
    if a == [] {
      assert a + b == b;
    } else {
      assert (a + b)[1..] == a[1..] + b;
      ReversedAppend(a[1..], b);
    }
  }

  /** Reversal keeps every element with its multiplicity: each entry runs exactly once. */
  lemma {:induction false} ReversedMultiset<T>(s: seq<T>)
    ensures multiset(Reversed(s)) == multiset(s)
  {
    if s != [] {
      ReversedMultiset(s[1..]);
      assert s == [s[0]] + s[1..];
    }
  }

  /** Reversing twice gives back the push order. */
  lemma {:induction false} ReversedReversed<T>(s: seq<T>)
    ensures Reversed(Reversed(s)) == s
  {
    if s != [] {
      ReversedReversed(s[1..]);
      ReversedAppend(Reversed(s[1..]), [s[0]]);
      assert Reversed([s[0]]) == [s[0]];
      assert s == [s[0]] + s[1..];
    }
  }

  /** A deque of release actions that is only pushed at the back and flushed whole. */
  class DeletionQueue<T> {
    var deletors: seq<T>

    constructor ()
      ensures deletors == []
    {
      deletors := [];
    }

    /** Appends `d` at the back; earlier entries are untouched. */
    method PushFunc(d: T)
      modifies this
      ensures deletors == old(deletors) + [d]
    {
      deletors := deletors + [d];
    }

    /** Runs every entry from the newest to the oldest and then clears the
        queue; `ran` lists the entries in the order they were run. */
    method Flush() returns (ran: seq<T>)
      modifies this
      ensures ran == Reversed(old(deletors))
      ensures deletors == []
    {
      var i := |deletors|;
      ran := [];
      while i > 0
        invariant 0 <= i <= |deletors|
        invariant ran == Reversed(deletors[i..])
      {
        i := i - 1;
        assert deletors[i..][1..] == deletors[i + 1..];
        ran := ran + [deletors[i]];
      }
      assert deletors[0..] == deletors;
      deletors := [];
    }
  }

  /** Pushing `ds` one by one leaves them at the back in push order. */
  method PushAll<T>(q: DeletionQueue<T>, ds: seq<T>)
    modifies q
    ensures q.deletors == old(q.deletors) + ds
  {
    var i := 0;
    while i < |ds|
      invariant 0 <= i <= |ds|
      invariant q.deletors == old(q.deletors) + ds[..i]
    {
      q.PushFunc(ds[i]);
      assert ds[..i + 1] == ds[..i] + [ds[i]];
      i := i + 1;
    }
    assert ds[..|ds|] == ds;
  }

  /** A flush right after a flush runs nothing and leaves the queue empty. */
  method FlushTwice<T>(q: DeletionQueue<T>) returns (first: seq<T>, second: seq<T>)
    modifies q
    ensures first == Reversed(old(q.deletors))
    ensures second == [] && q.deletors == []
  {
    first := q.Flush();
    second := q.Flush();
  }
}
