/** The intake/drain state of the pending-transaction listener: counters,
    FIFO queue, the draining flag, the listening flag, the recent list, and
    the batches whose lookups are still outstanding. */
module Pipeline {
  import opened TxTypes
  import opened Bounded
  import opened Classifier

  /** Largest number of hashes taken from the queue per drain cycle. */
  const BatchSize: nat := 10

  /** Length bound of the recent-transaction list. */
  const RecentCap: nat := 150

  /** `observed` is the delivered-transaction counter, `analyzed` the
      classified-transaction counter. `inflight` holds every batch taken from
      the queue whose lookups have not all resolved; the draining flag does
      not own it, since Stop and Reset clear the flag without waiting. */
  datatype State = State(
    observed: nat,
    analyzed: nat,
    buy: nat,
    sell: nat,
    queue: seq<TxRef>,
    inflight: seq<seq<TxRef>>,
    processing: bool,
    listening: bool,
    recent: seq<TxRef>)

  /** The freshly mounted listener: nothing seen, idle. */
  function Init(): (s: State)
    ensures s.observed == s.analyzed == s.buy == s.sell == 0
    ensures s.queue == [] && s.inflight == [] && s.recent == []
    ensures !s.processing && !s.listening
  {
    State(0, 0, 0, 0, [], [], false, false, [])
  }

  /** Total number of hashes in outstanding batches. */
  function Pending(bs: seq<seq<TxRef>>): nat
  {
    if bs == [] then 0 else |bs[0]| + Pending(bs[1..])
  }

  lemma {:induction false} PendingAppend(bs: seq<seq<TxRef>>, b: seq<TxRef>)
    ensures Pending(bs + [b]) == Pending(bs) + |b|
  {
    if bs != [] {
      assert (bs + [b])[1..] == bs[1..] + [b];
      PendingAppend(bs[1..], b);
    }
  }

  /** Removes the batch at position `i`, keeping the others in order. */
  function RemoveAt(bs: seq<seq<TxRef>>, i: nat): (r: seq<seq<TxRef>>)
    requires i < |bs|
    ensures |r| == |bs| - 1
    ensures forall k :: 0 <= k < i ==> r[k] == bs[k]
    ensures forall k :: i <= k < |r| ==> r[k] == bs[k + 1]
  {
    bs[..i] + bs[i + 1..]
  }

  lemma {:induction false} PendingRemoveAt(bs: seq<seq<TxRef>>, i: nat)
    requires i < |bs|
    ensures Pending(RemoveAt(bs, i)) + |bs[i]| == Pending(bs)
  {
    if i == 0 {
      assert RemoveAt(bs, 0) == bs[1..];
    } else {
      assert RemoveAt(bs, i)[1..] == RemoveAt(bs[1..], i - 1);
      PendingRemoveAt(bs[1..], i - 1);
    }
  }

  /** The delivery callback's bookkeeping: count the hashes, put them in front
      of the recent list in delivery order, and append them to the queue tail. */
  function Intake(s: State, txs: seq<TxRef>): (t: State)
    ensures t.observed == s.observed + |txs|
    ensures t.queue == s.queue + txs
    ensures |t.recent| == Min(RecentCap, |txs| + |s.recent|)
    ensures forall k :: 0 <= k < |t.recent| && k < |txs| ==> t.recent[k] == txs[k]
    ensures forall k :: |txs| <= k < |t.recent| ==> t.recent[k] == s.recent[k - |txs|]
    ensures t.(observed := s.observed, queue := s.queue, recent := s.recent) == s
  {
    s.(observed := s.observed + |txs|,
       recent := PrependBounded(txs, s.recent, RecentCap),
       queue := s.queue + txs)
  }

  /** The first phase of a drain cycle: unless a cycle is marked active or the
      queue is empty, mark one active and move the first `BatchSize` hashes
      (or all, if fewer) into a new outstanding batch. */
  function StartBatch(s: State): (t: State)
    ensures s.processing || s.queue == [] ==> t == s
    ensures !s.processing && s.queue != [] ==>
      && t.processing
      && |t.inflight| == |s.inflight| + 1
      && t.inflight[..|s.inflight|] == s.inflight
      && 0 < |t.inflight[|s.inflight|]| == Min(BatchSize, |s.queue|)
      && t.inflight[|s.inflight|] + t.queue == s.queue
      && t.(queue := s.queue, inflight := s.inflight, processing := s.processing) == s
  {
    if s.processing || |s.queue| == 0 then s
    else
      var n := Min(BatchSize, |s.queue|);
      assert s.queue[..n] + s.queue[n..] == s.queue;
      s.(processing := true,
         inflight := s.inflight + [s.queue[..n]],
         queue := s.queue[n..])
  }

  /** Result of the second phase: the new state and whether another drain
      cycle is scheduled. */
  datatype Completion = Completion(state: State, nextCycleDue: bool)

  /** The second phase of a drain cycle: the lookups of outstanding batch `i`
      have all resolved (one result per hash, in batch order). The batch is
      counted as analyzed in full, its buy and sell results are added, the
      draining flag is cleared, and a follow-up cycle is due when the queue
      is not empty. */
  function FinishBatch(s: State, i: nat, lookups: seq<Lookup>): (c: Completion)
    requires i < |s.inflight| && |lookups| == |s.inflight[i]|
    ensures c.state.analyzed == s.analyzed + |s.inflight[i]|
    ensures c.state.buy == s.buy + BatchCounts(lookups).buys
    ensures c.state.sell == s.sell + BatchCounts(lookups).sells
    ensures c.state.inflight == RemoveAt(s.inflight, i)
    ensures !c.state.processing
    ensures c.nextCycleDue <==> c.state.queue != []
    ensures c.state.(analyzed := s.analyzed, buy := s.buy, sell := s.sell,
                     inflight := s.inflight, processing := s.processing) == s
  {
    var inc := BatchCounts(lookups);
    var t := s.(buy := s.buy + inc.buys,
                sell := s.sell + inc.sells,
                analyzed := s.analyzed + |s.inflight[i]|,
                processing := false,
                inflight := RemoveAt(s.inflight, i));
    Completion(t, |t.queue| > 0)
  }

  /** Start: a no-op while already listening; otherwise begin listening. */
  function Start(s: State): (t: State)
    ensures s.listening ==> t == s
    ensures t.listening && t.(listening := s.listening) == s
  {
    if s.listening then s else s.(listening := true)
  }

  /** Stop: stop listening, drop the queued hashes and clear the draining flag.
      Counters, the recent list and outstanding batches are kept. */
  function Stop(s: State): (t: State)
    ensures !t.listening && t.queue == [] && !t.processing
    ensures t.(listening := s.listening, queue := s.queue, processing := s.processing) == s
  {
    s.(listening := false, queue := [], processing := false)
  }

  /** Reset: zero the counters, empty the recent list and the queue, clear the
      draining flag. Listening and outstanding batches are kept. */
  function Reset(s: State): (t: State)
    ensures t.observed == t.analyzed == t.buy == t.sell == 0
    ensures t.recent == [] && t.queue == [] && !t.processing
    ensures t.listening == s.listening && t.inflight == s.inflight
  {
    s.(buy := 0, sell := 0, observed := 0, analyzed := 0,
       recent := [], queue := [], processing := false)
  }

  /** Two deliveries in a row: the queue receives both in delivery order,
      while the recent list shows the later delivery in front. */
  lemma IntakeTwice(s: State, first: seq<TxRef>, second: seq<TxRef>)
    ensures Intake(Intake(s, first), second).observed == s.observed + |first| + |second|
    ensures Intake(Intake(s, first), second).queue == s.queue + first + second
    ensures Intake(Intake(s, first), second).recent == PrependBounded(second + first, s.recent, RecentCap)
  {
    PrependTwice(second, first, s.recent, RecentCap);
  }

  /** Start, Stop and Reset each change nothing when repeated. */
  lemma LifecycleIdempotent(s: State)
    ensures Start(Start(s)) == Start(s)
    ensures Stop(Stop(s)) == Stop(s)
    ensures Reset(Reset(s)) == Reset(s)
  {
  }
}
