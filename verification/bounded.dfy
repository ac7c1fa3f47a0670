/** Newest-first history lists of bounded length: new entries go in front,
    and the list is cut back to its cap. Used for the recent-transaction list
    and for the block list. */
module Bounded {

  function Min(a: int, b: int): (m: int)
    ensures m <= a && m <= b
    ensures m == a || m == b
  {
    if a <= b then a else b
  }

  /** `incoming` in delivery order in front of `prev`, keeping at most `cap` entries. */
  function PrependBounded<T>(incoming: seq<T>, prev: seq<T>, cap: nat): (r: seq<T>)
    ensures |r| == Min(cap, |incoming| + |prev|)
    ensures forall k :: 0 <= k < |r| && k < |incoming| ==> r[k] == incoming[k]
    ensures forall k :: |incoming| <= k < |r| ==> r[k] == prev[k - |incoming|]
  {
    var all := incoming + prev;
    all[..Min(cap, |all|)]
  }

  /** Two deliveries in a row leave the same list as one delivery of both,
      the later one in front. */
  lemma {:induction false} PrependTwice<T>(later: seq<T>, earlier: seq<T>, prev: seq<T>, cap: nat)
    ensures PrependBounded(later, PrependBounded(earlier, prev, cap), cap)
         == PrependBounded(later + earlier, prev, cap)
  {
    var lhs := PrependBounded(later, PrependBounded(earlier, prev, cap), cap);
    var rhs := PrependBounded(later + earlier, prev, cap);
    assert |lhs| == |rhs|;
    forall k | 0 <= k < |lhs|
      ensures lhs[k] == rhs[k]
    {
      if k >= |later| {
        assert (later + earlier + prev)[k] == (earlier + prev)[k - |later|];
      }
    }
  }

  /** A delivery at least as long as the cap replaces the whole list by its
      own first `cap` entries. */
  lemma FloodReplaces<T>(incoming: seq<T>, prev: seq<T>, cap: nat)
    requires |incoming| >= cap
    ensures PrependBounded(incoming, prev, cap) == incoming[..cap]
  {
  }

  /** An empty delivery leaves a list that is within its cap untouched. */
  lemma EmptyDeliveryKeeps<T>(prev: seq<T>, cap: nat)
    requires |prev| <= cap
    ensures PrependBounded([], prev, cap) == prev
  {
  }
}
