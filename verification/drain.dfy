/** The self-rescheduling drain: after each completed cycle a follow-up cycle
    is due while the queue is non-empty, so a queue is worked off in full
    batches followed by one partial batch. */
module Drain {
  import opened TxTypes
  import opened Bounded
  import opened Classifier
  import opened Pipeline

  function Sum(xs: seq<nat>): nat
  {
    if xs == [] then 0 else xs[0] + Sum(xs[1..])
  }

  /** The state once a cycle has drained `batch` from the head of the queue
      of `t` and counted its results. */
  function After(t: State, batch: seq<Lookup>): State
    requires |batch| <= |t.queue|
  {
    var c := Tally(ClassifyAll(batch));
    t.(analyzed := t.analyzed + |batch|,
       buy := t.buy + c.buys,
       sell := t.sell + c.sells,
       queue := t.queue[|batch|..])
  }

  /** One full drain cycle on an idle scheduler: start a batch of the first
      `Min(BatchSize, |queue|)` hashes, then complete it with `ls`. */
  method DrainCycle(t: State, ls: seq<Lookup>) returns (c: Completion)
    requires !t.processing && t.queue != [] && |ls| == Min(BatchSize, |t.queue|)
    ensures c.state == After(t, ls)
    ensures c.state.queue == t.queue[|ls|..]
    ensures c.nextCycleDue <==> |t.queue| > BatchSize
  {
    var u := StartBatch(t);
    var i := |t.inflight|;
    assert u.inflight[i] + u.queue == t.queue;
    assert RemoveAt(u.inflight, i) == t.inflight;
    c := FinishBatch(u, i, ls);
  }

  /** Batch sizes of draining `remaining` queued hashes one cycle after another. */
  function Schedule(remaining: nat): seq<nat>
    decreases remaining
  {
    if remaining == 0 then []
    else [Min(BatchSize, remaining)] + Schedule(remaining - Min(BatchSize, remaining))
  }

  /** Every batch is non-empty and at most `BatchSize`, all but the last are
      full, and together they cover the queue. */
  lemma {:induction false} ScheduleShape(remaining: nat)
    ensures Sum(Schedule(remaining)) == remaining
    ensures forall k :: 0 <= k < |Schedule(remaining)| ==> 0 < Schedule(remaining)[k] <= BatchSize
    ensures forall k :: 0 <= k < |Schedule(remaining)| - 1 ==> Schedule(remaining)[k] == BatchSize
    decreases remaining
  {
    if remaining > 0 {
      var n := Min(BatchSize, remaining);
      ScheduleShape(remaining - n);
    }
  }

  /** Classifying a longer prefix of the lookups adds the next stretch's counts. */
  lemma CountsAdvance(lookups: seq<Lookup>, done: nat, n: nat)
    requires done + n <= |lookups|
    ensures Tally(ClassifyAll(lookups[..done + n])).buys
         == Tally(ClassifyAll(lookups[..done])).buys + Tally(ClassifyAll(lookups[done..done + n])).buys
    ensures Tally(ClassifyAll(lookups[..done + n])).sells
         == Tally(ClassifyAll(lookups[..done])).sells + Tally(ClassifyAll(lookups[done..done + n])).sells
  {
    var a := ClassifyAll(lookups[..done]);
    var b := ClassifyAll(lookups[done..done + n]);
    assert lookups[..done + n] == lookups[..done] + lookups[done..done + n];
    ClassifyAllConcat(lookups[..done], lookups[done..done + n]);
    TallyAdd(a, b);
  }

  /** The state after the first `done` queued hashes of `s` have been drained
      and counted, `lookups[k]` being the lookup result of the k-th. */
  function Drained(s: State, lookups: seq<Lookup>, done: nat): State
    requires done <= |s.queue| && |lookups| == |s.queue|
  {
    var c := Tally(ClassifyAll(lookups[..done]));
    s.(analyzed := s.analyzed + done,
       buy := s.buy + c.buys,
       sell := s.sell + c.sells,
       queue := s.queue[done..])
  }

  /** Draining the next batch of a partly drained queue gives the state with
      that batch drained too. */
  lemma CycleAdvances(s: State, lookups: seq<Lookup>, done: nat, n: nat)
    requires |lookups| == |s.queue| && done + n <= |s.queue|
    ensures After(Drained(s, lookups, done), lookups[done..done + n]) == Drained(s, lookups, done + n)
  {
    CountsAdvance(lookups, done, n);
    assert s.queue[done..][n..] == s.queue[done + n..];
  }

  /** Once every queued hash is drained, the counters have grown by the
      number of hashes and by the buy and sell results among them. */
  lemma FullyDrained(s: State, lookups: seq<Lookup>)
    requires |lookups| == |s.queue|
    ensures var t := Drained(s, lookups, |s.queue|);
      && t.queue == [] && t.processing == s.processing && t.inflight == s.inflight
      && t.analyzed == s.analyzed + |s.queue|
      && t.buy == s.buy + BatchCounts(lookups).buys
      && t.sell == s.sell + BatchCounts(lookups).sells
      && t.observed == s.observed && t.recent == s.recent && t.listening == s.listening
  {
    assert lookups[..|s.queue|] == lookups;
    TallyCountsTags(ClassifyAll(lookups));
  }

  /** Runs drain cycles back to back, each completing before the next starts,
      as long as the last completed cycle reported a follow-up due;
      `lookups[k]` is the lookup result for the k-th queued hash. Returns the
      final state and the size of each batch. */
  method DrainAll(s: State, lookups: seq<Lookup>) returns (t: State, sizes: seq<nat>)
    requires !s.processing
    requires |lookups| == |s.queue|
    ensures t.queue == [] && !t.processing && t.inflight == s.inflight
    ensures t.analyzed == s.analyzed + |s.queue|
    ensures t.buy == s.buy + BatchCounts(lookups).buys
    ensures t.sell == s.sell + BatchCounts(lookups).sells
    ensures sizes == Schedule(|s.queue|)
    ensures t.observed == s.observed && t.recent == s.recent && t.listening == s.listening
  {
    var done: nat := 0;
    assert lookups[..0] == [];
    t := s;
    sizes := [];
    var more := s.queue != [];
    while more
      invariant done <= |s.queue| && t == Drained(s, lookups, done)
      invariant more <==> done < |s.queue|
      invariant sizes + Schedule(|s.queue| - done) == Schedule(|s.queue|)
      decreases |s.queue| - done
    {
      var n: nat := Min(BatchSize, |s.queue| - done);
      var batch := lookups[done..done + n];
      var c := DrainCycle(t, batch);
      CycleAdvances(s, lookups, done, n);
      assert Schedule(|s.queue| - done) == [n] + Schedule(|s.queue| - (done + n));
      assert sizes + [n] + Schedule(|s.queue| - (done + n)) == sizes + Schedule(|s.queue| - done);
      t := c.state;
      sizes := sizes + [n];
      more := c.nextCycleDue;
      done := done + n;
    }
    FullyDrained(s, lookups);
  }

  /** Twenty-five queued hashes are worked off as batches of 10, 10 and 5, in
      queue order, with a follow-up cycle due after the first two only. */
  lemma TwentyFiveDrainAsTenTenFive(s: State, l1: seq<Lookup>, l2: seq<Lookup>, l3: seq<Lookup>)
    requires !s.processing && s.inflight == [] && |s.queue| == 25
    requires |l1| == 10 && |l2| == 10 && |l3| == 5
    ensures
      var a1 := StartBatch(s);
      && a1.inflight == [s.queue[..10]]
      && var c1 := FinishBatch(a1, 0, l1);
      && c1.nextCycleDue
      && var a2 := StartBatch(c1.state);
      && a2.inflight == [s.queue[10..20]]
      && var c2 := FinishBatch(a2, 0, l2);
      && c2.nextCycleDue
      && var a3 := StartBatch(c2.state);
      && a3.inflight == [s.queue[20..]]
      && var c3 := FinishBatch(a3, 0, l3);
      && !c3.nextCycleDue
      && c3.state.queue == []
      && c3.state.analyzed == s.analyzed + 25
  {
    var a1 := StartBatch(s);
    assert a1.inflight[0] + a1.queue == s.queue;
    assert a1.inflight[0] == s.queue[..10];
    var c1 := FinishBatch(a1, 0, l1);
    assert c1.state.queue == s.queue[10..];
    var a2 := StartBatch(c1.state);
    assert a2.inflight[0] + a2.queue == s.queue[10..];
    assert a2.inflight[0] == s.queue[10..20];
    var c2 := FinishBatch(a2, 0, l2);
    assert c2.state.queue == s.queue[20..];
    var a3 := StartBatch(c2.state);
    assert a3.inflight[0] + a3.queue == s.queue[20..];
    assert a3.inflight[0] == s.queue[20..];
  }
}
