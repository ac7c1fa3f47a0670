/** Runs of the listener as sequences of events, and the invariants that hold
    along them. The flag-clearing of Stop and Reset while a batch is
    outstanding is what separates the invariants that always hold from those
    that hold only on well-behaved runs. */
module Traces {
  import opened TxTypes
  import opened Bounded
  import opened Pipeline

  /** `Deliver` is one call of the delivery callback, which also tries to
      start a drain cycle; `Cycle` is a scheduled follow-up drain attempt;
      `Complete` is the resolution of all lookups of outstanding batch `i`. */
  datatype Event =
    | Deliver(txs: seq<TxRef>)
    | Cycle
    | Complete(i: nat, lookups: seq<Lookup>)
    | StartListening
    | StopListening
    | ResetStats

  /** True when the event can occur in state `s`: deliveries arrive only while
      subscribed, and a completion belongs to an outstanding batch. */
  predicate Enabled(s: State, e: Event) {
    match e
    case Deliver(_) => s.listening
    case Complete(i, ls) => i < |s.inflight| && |ls| == |s.inflight[i]|
    case _ => true
  }

  /** One event; an event that cannot occur leaves the state as it is. A
      delivery is counted and queued, and then, unless a cycle is already
      active or there is nothing to drain, it starts a drain cycle on the
      head of the grown queue. */
  function Step(s: State, e: Event): (r: State)
    ensures !Enabled(s, e) ==> r == s
    ensures e.Deliver? && s.listening ==>
      && r.observed == s.observed + |e.txs|
      && r.analyzed == s.analyzed && r.buy == s.buy && r.sell == s.sell && r.listening
      && r.recent == PrependBounded(e.txs, s.recent, RecentCap)
      && (s.processing || s.queue + e.txs == [] ==>
            r.queue == s.queue + e.txs && r.inflight == s.inflight && r.processing == s.processing)
      && (!s.processing && s.queue + e.txs != [] ==>
            && r.processing && |r.inflight| == |s.inflight| + 1
            && r.inflight[..|s.inflight|] == s.inflight
            && |r.inflight[|s.inflight|]| == Min(BatchSize, |s.queue + e.txs|)
            && r.inflight[|s.inflight|] + r.queue == s.queue + e.txs)
  {
    if !Enabled(s, e) then s
    else match e
      case Deliver(txs) => StartBatch(Intake(s, txs))
      case Cycle => StartBatch(s)
      case Complete(i, ls) => FinishBatch(s, i, ls).state
      case StartListening => Start(s)
      case StopListening => Stop(s)
      case ResetStats => Reset(s)
  }

  function Run(s: State, es: seq<Event>): State
    decreases |es|
  {
    if es == [] then s else Run(Step(s, es[0]), es[1..])
  }

  /** Buy and sell results never exceed the analyzed count. */
  predicate TallyBound(s: State) {
    s.buy + s.sell <= s.analyzed
  }

  /** Every hash analyzed, queued or outstanding was counted as observed. */
  predicate Accounted(s: State) {
    s.analyzed + |s.queue| + Pending(s.inflight) <= s.observed
  }

  /** Every observed hash is analyzed, queued or outstanding: none is dropped. */
  predicate Conserved(s: State) {
    s.analyzed + |s.queue| + Pending(s.inflight) == s.observed
  }

  /** An idle listener has nothing queued and no cycle marked active. */
  predicate Quiescent(s: State) {
    !s.listening ==> s.queue == [] && !s.processing
  }

  /** At most one batch is outstanding, and the draining flag says whether one is. */
  predicate SingleDrain(s: State) {
    |s.inflight| <= 1 && (s.processing <==> |s.inflight| == 1)
  }

  /** True when no Reset in the run happens while a batch is outstanding. */
  predicate ResetsOnlyWhenIdle(s: State, es: seq<Event>)
    decreases |es|
  {
    es == [] ||
    ((es[0].ResetStats? ==> s.inflight == []) && ResetsOnlyWhenIdle(Step(s, es[0]), es[1..]))
  }

  /** True when no Stop or Reset in the run happens while a batch is outstanding. */
  predicate InterruptsOnlyWhenIdle(s: State, es: seq<Event>)
    decreases |es|
  {
    es == [] ||
    ((es[0].ResetStats? || es[0].StopListening? ==> s.inflight == [])
     && InterruptsOnlyWhenIdle(Step(s, es[0]), es[1..]))
  }

  /** True when no Stop in the run discards queued hashes and no Reset
      happens while a batch is outstanding. */
  predicate DropsNothing(s: State, es: seq<Event>)
    decreases |es|
  {
    es == [] ||
    ((es[0].StopListening? ==> s.queue == [])
     && (es[0].ResetStats? ==> s.inflight == [])
     && DropsNothing(Step(s, es[0]), es[1..]))
  }

  lemma StepKeepsTallyBound(s: State, e: Event)
    requires TallyBound(s)
    ensures TallyBound(Step(s, e))
  {
  }

  lemma StepKeepsAccounted(s: State, e: Event)
    requires Accounted(s)
    requires e.ResetStats? ==> s.inflight == []
    ensures Accounted(Step(s, e))
  {
    if Enabled(s, e) {
      match e
      case Deliver(txs) =>
        var u := Intake(s, txs);
        if !u.processing && u.queue != [] {
          PendingAppend(u.inflight, StartBatch(u).inflight[|u.inflight|]);
        }
      case Cycle =>
        if !s.processing && s.queue != [] {
          PendingAppend(s.inflight, StartBatch(s).inflight[|s.inflight|]);
        }
      case Complete(i, ls) =>
        PendingRemoveAt(s.inflight, i);
      case _ =>
    }
  }

  /** Every event except a Stop that discards queued hashes and a Reset
      during an outstanding batch keeps every observed hash accounted for. */
  lemma StepKeepsConserved(s: State, e: Event)
    requires Conserved(s)
    requires e.StopListening? ==> s.queue == []
    requires e.ResetStats? ==> s.inflight == []
    ensures Conserved(Step(s, e))
  {
    if Enabled(s, e) {
      match e
      case Deliver(txs) =>
        var u := Intake(s, txs);
        if !u.processing && u.queue != [] {
          PendingAppend(u.inflight, StartBatch(u).inflight[|u.inflight|]);
        }
      case Cycle =>
        if !s.processing && s.queue != [] {
          PendingAppend(s.inflight, StartBatch(s).inflight[|s.inflight|]);
        }
      case Complete(i, ls) =>
        PendingRemoveAt(s.inflight, i);
      case _ =>
    }
  }

  /** A Stop with hashes still queued drops them from the account. */
  lemma StopDropsQueued(s: State)
    requires Conserved(s) && s.queue != []
    ensures !Conserved(Stop(s))
    ensures Accounted(Stop(s))
  {
  }

  lemma StepKeepsQuiescent(s: State, e: Event)
    requires Quiescent(s)
    ensures Quiescent(Step(s, e))
  {
  }

  lemma StepKeepsSingleDrain(s: State, e: Event)
    requires SingleDrain(s)
    requires e.ResetStats? || e.StopListening? ==> s.inflight == []
    ensures SingleDrain(Step(s, e))
  {
  }

  /** Every run keeps buy + sell within analyzed, Resets included. */
  lemma {:induction false} RunKeepsTallyBound(s: State, es: seq<Event>)
    requires TallyBound(s)
    ensures TallyBound(Run(s, es))
    decreases |es|
  {
    if es != [] {
      StepKeepsTallyBound(s, es[0]);
      RunKeepsTallyBound(Step(s, es[0]), es[1..]);
    }
  }

  /** Runs with no Reset during an outstanding batch never analyze more than
      they observed. */
  lemma {:induction false} RunKeepsAccounted(s: State, es: seq<Event>)
    requires Accounted(s) && ResetsOnlyWhenIdle(s, es)
    ensures Accounted(Run(s, es))
    ensures Run(s, es).analyzed <= Run(s, es).observed
    decreases |es|
  {
    if es != [] {
      StepKeepsAccounted(s, es[0]);
      RunKeepsAccounted(Step(s, es[0]), es[1..]);
    }
  }

  /** Runs in which no Stop discards queued hashes and no Reset lands on an
      outstanding batch keep every observed hash analyzed, queued or
      outstanding. */
  lemma {:induction false} RunKeepsConserved(s: State, es: seq<Event>)
    requires Conserved(s) && DropsNothing(s, es)
    ensures Conserved(Run(s, es))
    decreases |es|
  {
    if es != [] {
      StepKeepsConserved(s, es[0]);
      RunKeepsConserved(Step(s, es[0]), es[1..]);
    }
  }

  /** Every run from a quiescent state keeps an idle listener's queue empty
      and its draining flag clear. */
  lemma {:induction false} RunKeepsQuiescent(s: State, es: seq<Event>)
    requires Quiescent(s)
    ensures Quiescent(Run(s, es))
    decreases |es|
  {
    if es != [] {
      StepKeepsQuiescent(s, es[0]);
      RunKeepsQuiescent(Step(s, es[0]), es[1..]);
    }
  }

  /** Runs with no Stop or Reset during an outstanding batch never have two
      drain cycles active. */
  lemma {:induction false} RunKeepsSingleDrain(s: State, es: seq<Event>)
    requires SingleDrain(s) && InterruptsOnlyWhenIdle(s, es)
    ensures SingleDrain(Run(s, es))
    decreases |es|
  {
    if es != [] {
      StepKeepsSingleDrain(s, es[0]);
      RunKeepsSingleDrain(Step(s, es[0]), es[1..]);
    }
  }

  /** The initial state satisfies every invariant above. */
  lemma InitSatisfiesInvariants()
    ensures TallyBound(Init()) && Accounted(Init()) && Quiescent(Init()) && SingleDrain(Init())
    ensures Conserved(Init())
  {
  }

  /** From the initial state: every run keeps buy + sell within analyzed and
      keeps an idle listener quiet; runs without a Reset during an
      outstanding batch also never analyze more than they observed, and
      runs that drop nothing keep every observed hash accounted for. */
  lemma RunFromInit(es: seq<Event>)
    ensures TallyBound(Run(Init(), es)) && Quiescent(Run(Init(), es))
    ensures ResetsOnlyWhenIdle(Init(), es) ==> Accounted(Run(Init(), es))
    ensures DropsNothing(Init(), es) ==> Conserved(Run(Init(), es))
  {
    RunKeepsTallyBound(Init(), es);
    RunKeepsQuiescent(Init(), es);
    if ResetsOnlyWhenIdle(Init(), es) {
      RunKeepsAccounted(Init(), es);
    }
    if DropsNothing(Init(), es) {
      RunKeepsConserved(Init(), es);
    }
  }

  /** On an idle listener Stop changes nothing. */
  lemma StopWhenIdleIsNoOp(s: State)
    requires Quiescent(s) && !s.listening
    ensures Stop(s) == s
  {
  }

  /** After Stop or Reset a drain attempt takes nothing until new hashes arrive. */
  lemma ClearedQueueDrainsNothing(s: State)
    ensures Step(Stop(s), Cycle) == Stop(s)
    ensures Step(Reset(s), Cycle) == Reset(s)
  {
  }

  /** A batch outstanding when Stop is called is still counted in full when
      its lookups resolve, and no follow-up cycle is due. */
  lemma StoppedBatchStillCounts(s: State, i: nat, ls: seq<Lookup>)
    requires i < |s.inflight| && |ls| == |s.inflight[i]|
    ensures Step(Stop(s), Complete(i, ls)).analyzed == s.analyzed + |s.inflight[i]|
    ensures !FinishBatch(Stop(s), i, ls).nextCycleDue
    ensures !Step(Stop(s), Complete(i, ls)).listening
  {
  }

  /** Running one more event is one more step on the end of the run. */
  lemma {:induction false} RunSnoc(s: State, es: seq<Event>, e: Event)
    ensures Run(s, es + [e]) == Step(Run(s, es), e)
    decreases |es|
  {
    if es == [] {
      assert [e][1..] == [];
    } else {
      assert (es + [e])[0] == es[0];
      assert (es + [e])[1..] == es[1..] + [e];
      RunSnoc(Step(s, es[0]), es[1..], e);
    }
  }

  /** Listen, receive one hash (its batch starts), Reset, then the batch
      completes with a failed lookup. */
  function ResetMidBatchRun(): seq<Event> {
    [StartListening, Deliver(["0xa1"]), ResetStats, Complete(0, [Failed])]
  }

  /** The state the run above is in once Reset has been applied. */
  lemma ResetMidBatchPrefix()
    ensures Step(Step(Step(Init(), StartListening), Deliver(["0xa1"])), ResetStats)
         == State(0, 0, 0, 0, [], [["0xa1"]], false, true, [])
  {
    var s1 := Init().(listening := true);
    assert Step(Init(), StartListening) == s1;
    var u := Intake(s1, ["0xa1"]);
    assert u.queue == ["0xa1"] && u.inflight == [] && !u.processing;
    assert Min(BatchSize, |u.queue|) == 1 && u.queue[..1] == ["0xa1"];
    var s2 := StartBatch(u);
    assert s2.inflight == [["0xa1"]];
    assert Step(s1, Deliver(["0xa1"])) == s2;
  }

  /** The run above is its Reset prefix followed by the completion. */
  lemma ResetMidBatchUnrolled()
    ensures Run(Init(), ResetMidBatchRun())
         == Step(State(0, 0, 0, 0, [], [["0xa1"]], false, true, []), Complete(0, [Failed]))
  {
    var a, b, r, d := StartListening, Deliver(["0xa1"]), ResetStats, Complete(0, [Failed]);
    assert [] + [a] == [a] && [a] + [b] == [a, b] && [a, b] + [r] == [a, b, r];
    assert [a, b, r] + [d] == ResetMidBatchRun();
    RunSnoc(Init(), [], a);
    RunSnoc(Init(), [a], b);
    RunSnoc(Init(), [a, b], r);
    RunSnoc(Init(), [a, b, r], d);
    ResetMidBatchPrefix();
  }

  /** The run above ends with one analyzed transaction and none observed. */
  lemma ResetMidBatchOvercounts()
    ensures Run(Init(), ResetMidBatchRun()).analyzed == 1
    ensures Run(Init(), ResetMidBatchRun()).observed == 0
    ensures !Accounted(Run(Init(), ResetMidBatchRun()))
    ensures TallyBound(Run(Init(), ResetMidBatchRun()))
  {
    ResetMidBatchUnrolled();
    var s3 := State(0, 0, 0, 0, [], [["0xa1"]], false, true, []);
    var c := FinishBatch(s3, 0, [Failed]);
    assert Step(s3, Complete(0, [Failed])) == c.state;
    assert c.state.analyzed == 1 && c.state.observed == 0;
  }

  /** Listen, receive a hash (its batch starts), Stop, listen again and
      receive another hash. */
  function StopMidBatchRun(): seq<Event> {
    [StartListening, Deliver(["0xa1"]), StopListening, StartListening, Deliver(["0xb2"])]
  }

  /** Before the second delivery of the run above, the first batch is still
      outstanding while the draining flag is clear. */
  lemma StopMidBatchPrefix()
    ensures
      var s4 := Step(Step(Step(Step(Init(), StartListening), Deliver(["0xa1"])), StopListening), StartListening);
      s4.inflight == [["0xa1"]] && !s4.processing && s4.listening
  {
    var s1 := Init().(listening := true);
    assert Step(Init(), StartListening) == s1;
    var u := Intake(s1, ["0xa1"]);
    assert u.queue == ["0xa1"] && u.inflight == [] && !u.processing;
    assert Min(BatchSize, |u.queue|) == 1 && u.queue[..1] == ["0xa1"];
    var s2 := StartBatch(u);
    assert s2.inflight == [["0xa1"]];
    assert Step(s1, Deliver(["0xa1"])) == s2;
    assert Step(s2, StopListening) == Stop(s2);
    assert Step(Stop(s2), StartListening) == Start(Stop(s2));
  }

  /** The run above ends with two batches outstanding at once. */
  lemma StopMidBatchOverlaps()
    ensures |Run(Init(), StopMidBatchRun()).inflight| == 2
    ensures !SingleDrain(Run(Init(), StopMidBatchRun()))
  {
    var a, b, c, d, e := StartListening, Deliver(["0xa1"]), StopListening, StartListening, Deliver(["0xb2"]);
    assert [] + [a] == [a] && [a] + [b] == [a, b] && [a, b] + [c] == [a, b, c];
    assert [a, b, c] + [d] == [a, b, c, d] && [a, b, c, d] + [e] == StopMidBatchRun();
    RunSnoc(Init(), [], a);
    RunSnoc(Init(), [a], b);
    RunSnoc(Init(), [a, b], c);
    RunSnoc(Init(), [a, b, c], d);
    RunSnoc(Init(), [a, b, c, d], e);
    StopMidBatchPrefix();
    var s4 := Step(Step(Step(Step(Init(), a), b), c), d);
    assert |s4.queue + ["0xb2"]| > 0;
  }
}
