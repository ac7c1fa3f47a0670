# Pending-transaction pipeline of the mempool sentiment dashboard, in Dafny

This project models the core of `App.jsx`: the part that takes pending
transaction hashes from a subscription, classifies each one as a `buy`,
`sell` or `neutral` move of the native asset, and keeps running counters.
The model has three parts.

* **Classifier** (`Classifier`, `classifier.dfy`). `analyzeTxType` without its
  network fetch. The lookup is an input `Lookup`: a found `TxDetail`,
  `NotFound` (the `!tx` case) or `Failed` (the `catch` case). The rules are
  checked in the source's order: a length guard, the lower-cased ten-character
  selector, the sell table, the buy table, the generic-swap table decided by
  value, a value-and-destination fallback, and finally `neutral`.
  `Tally` is the per-batch count of buys and sells.
* **Intake/drain state machine** (`Pipeline`, `Traces`, `Drain`). The
  listener state is one record. It holds the observed, analyzed, buy and sell
  counters, the FIFO queue, the draining flag, the listening flag and the
  recent list. It also holds the batches that were taken from the queue but
  whose lookups have not resolved yet (`inflight`).
  * A drain cycle has two phases. `StartBatch` takes up to 10 hashes from the
    head of the queue. `FinishBatch` folds that batch's results into the
    counters, clears the flag and reports whether a follow-up cycle is due.
  * `Stop` and `Reset` clear the flag without waiting for an outstanding
    batch. That batch still adds to the counters when it completes.
  * `Traces` defines runs as event sequences and proves the invariants along
    them. For the two invariants that hold only on restricted runs, it
    also gives a concrete run that breaks the invariant once the
    restriction is dropped.
  * `Drain` runs cycles back to back until no follow-up is due.
* **Dominance verdict** (`Dominance`) over the buy and sell counters. The
  optional **block list** (`Blocks`) reuses the bounded newest-first prepend
  (`Bounded`) that also keeps the recent-transaction list.

Three behaviours of the code differ from what one might expect of such a
pipeline; the model follows the code:

* One might expect a call to be left unclassified only when its calldata is
  too short to hold a 4-byte selector. The code instead returns `neutral`
  for every input of at most ten characters (`length <= 10`, App.jsx:41).
  So calldata that is exactly a bare selector is neutral, even with value
  and a destination (`Classifier.FallbackScenarios`).
* One might expect at most one drain cycle to be active at any instant. The
  code instead clears the draining flag on Stop and Reset without cancelling the
  outstanding batch. After Stop, Start and a new delivery, two batches are
  outstanding at once (`Traces.StopMidBatchOverlaps`). At most one batch is
  outstanding only on runs with no Stop or Reset during a batch
  (`Traces.RunKeepsSingleDrain`).
* One might expect the analyzed count never to exceed the observed count. In
  the code, a Reset during an outstanding batch zeroes `observed`, and the batch's
  completion then adds its length to `analyzed`
  (`Traces.ResetMidBatchOvercounts`). The bound holds on runs with no Reset
  during a batch (`Traces.RunKeepsAccounted`). It is an equality, with every
  observed hash analyzed, queued or outstanding, as long as no Stop also
  discards queued hashes (`Traces.RunKeepsConserved`, `Traces.StopDropsQueued`).
  `buy + sell ≤ analyzed` holds on every run (`Traces.RunKeepsTallyBound`).

## Model

| member | source | states |
|---|---|---|
| `Bounded.PrependBounded` | App.jsx:170 | the result is the new entries in delivery order followed by the older ones, cut to the cap; its length is `min(cap, total)` |
| `Bounded.PrependTwice` | App.jsx:170 | two deliveries in a row leave the same list as one delivery of both, with the later one in front |
| `Bounded.FloodReplaces` | App.jsx:170 | a delivery at least as long as the cap replaces the whole list with its own first `cap` entries |
| `Bounded.EmptyDeliveryKeeps` | App.jsx:170 | an empty delivery leaves a list within its cap unchanged |
| `Classifier.LowerChar` | App.jsx:45 | the result is never an upper-case letter; only ASCII upper-case letters change, each to its lower-case partner |
| `Classifier.Lower` | App.jsx:45 | lower-casing keeps the length and maps each character through `LowerChar` |
| `Classifier.Selector` | App.jsx:45 | the selector has exactly ten characters; its k-th character is the lower-cased k-th character of the calldata, so none is upper case |
| `Classifier.Classify` | App.jsx:37-107 | no usable calldata gives `neutral`; `buy` comes only from a selector in the buy or generic-swap table; `neutral` with a selector means the selector is on no table |
| `Classifier.NoSelectorIsNeutral` | App.jsx:41-43 | nothing found, a thrown lookup, missing or empty calldata, or calldata of at most ten characters all classify as `neutral` |
| `Classifier.SellTableWins` | App.jsx:83-84 | a selector on the sell table gives `sell` for every value and destination |
| `Classifier.BuyTableWins` | App.jsx:85-86 | a selector on the buy table gives `buy` for every value and destination |
| `Classifier.GenericSwapFollowsValue` | App.jsx:89-96 | a generic-swap selector gives `sell` iff positive value is sent, otherwise `buy`, and never `neutral` |
| `Classifier.UnlistedFollowsFallback` | App.jsx:98-103 | an unlisted selector gives `sell` iff positive value goes to a non-empty destination, otherwise `neutral`, and never `buy` |
| `Classifier.TablesDisjoint` | App.jsx:51-81 | no selector is on two of the three tables |
| `Classifier.CheckOrderImmaterial` | App.jsx:83-87 | consulting the buy table before the sell table classifies every lookup the same way |
| `Classifier.LowerPrefix` | App.jsx:45 | lower-casing commutes with taking a prefix and is idempotent |
| `Classifier.CaseInsensitive` | App.jsx:45 | two calldata strings equal up to letter case classify the same |
| `Classifier.DirectSwapScenarios` | App.jsx:51-87 | `0x7ff36ab5…` is a sell, also when written in upper case; `0x18cbafe5…` is a buy |
| `Classifier.GenericSwapScenarios` | App.jsx:72-96 | `0x38ed1739…` is a buy with value 0 and a sell with value 1 |
| `Classifier.FallbackScenarios` | App.jsx:98-106 | an unlisted call with value is a sell only with a non-empty destination; a bare selector and a failed lookup are neutral |
| `Classifier.ClassifyAll` | App.jsx:123-129 | one result per lookup of the batch |
| `Classifier.ClassifyAllAt` | App.jsx:123-129 | the k-th result is the classification of the k-th lookup |
| `Classifier.Tally` | App.jsx:132-138 | the buy and sell increments together never exceed the batch length |
| `Classifier.TallyCountsTags` | App.jsx:132-138 | the increments are exactly the numbers of `buy` and `sell` results; all other results are `neutral` |
| `Classifier.BatchCounts` | App.jsx:123-138 | a batch's increments are the number of its lookups classified `buy` and `sell`, and together at most the batch length |
| `Pipeline.Init` | App.jsx:13-21 | the initial listener has zero counters, empty queue and lists, and neither flag set |
| `Pipeline.Intake` | App.jsx:168-173 | a delivery adds its length to `observed`, appends to the queue tail in order, and puts itself in front of the recent list, capped at 150; nothing else changes |
| `Pipeline.IntakeTwice` | App.jsx:168-173 | two deliveries queue both in delivery order, while the recent list shows the later one first |
| `Pipeline.StartBatch` | App.jsx:110-119 | a no-op while draining or when the queue is empty; otherwise it sets the flag and moves exactly the first `min(10, \|queue\|)` hashes into a new outstanding batch, leaving the rest in order |
| `Pipeline.FinishBatch` | App.jsx:131-153 | completing batch `i` adds its length to `analyzed` and the number of buy and sell results to `buy` and `sell`; it removes the batch, clears the flag, and a follow-up is due iff the queue is non-empty |
| `Pipeline.Start` | App.jsx:156-158 | a no-op while listening; otherwise it only sets `listening` |
| `Pipeline.Stop` | App.jsx:183-188 | clears `listening`, the queue and the flag; counters, the recent list and outstanding batches are kept |
| `Pipeline.Reset` | App.jsx:190-198 | zeroes all four counters, empties the recent list and the queue, clears the flag; `listening` and outstanding batches are kept |
| `Pipeline.LifecycleIdempotent` | App.jsx:156-198 | repeating Start, Stop or Reset changes nothing further |
| `Traces.Step` | App.jsx:168-176 | an event that cannot occur (a delivery while not subscribed, a completion of no outstanding batch) changes nothing; a delivery adds its length to `observed`, leaves `analyzed`, `buy`, `sell` and `listening` as they were, is put in front of the recent list and queued, and then, unless a cycle is active or nothing is queued, starts a cycle whose batch is exactly the first `min(10, \|queue\|)` hashes of the grown queue |
| `Traces.StepKeepsTallyBound` | App.jsx:140-142 | every event, Reset mid-batch included, keeps `buy + sell <= analyzed` |
| `Traces.StepKeepsAccounted` | App.jsx:169-197 | every event except a Reset during an outstanding batch keeps analyzed + queued + outstanding <= observed |
| `Traces.StepKeepsConserved` | App.jsx:169-197 | every event except a Stop that discards queued hashes and a Reset during an outstanding batch keeps analyzed + queued + outstanding equal to observed: no hash is counted twice or lost |
| `Traces.StopDropsQueued` | App.jsx:183-188 | a Stop with hashes still queued loses them from the account, while the observed bound still holds |
| `Traces.StepKeepsQuiescent` | App.jsx:183-188 | every event keeps an idle listener's queue empty and its flag clear |
| `Traces.StepKeepsSingleDrain` | App.jsx:111-115 | every event except Stop or Reset during a batch keeps at most one batch outstanding, with the flag set iff one is |
| `Traces.RunKeepsTallyBound` | App.jsx:131-142 | every run keeps `buy + sell <= analyzed` |
| `Traces.RunKeepsAccounted` | App.jsx:190-198 | runs with no Reset during an outstanding batch never analyze more than they observed |
| `Traces.RunKeepsConserved` | App.jsx:169-197 | runs in which no Stop discards queued hashes and no Reset lands on an outstanding batch keep every observed hash analyzed, queued or outstanding |
| `Traces.RunKeepsQuiescent` | App.jsx:183-188 | every run keeps an idle listener with an empty queue and a clear flag |
| `Traces.RunKeepsSingleDrain` | App.jsx:111-115 | runs with no Stop or Reset during a batch never have two drain cycles active |
| `Traces.InitSatisfiesInvariants` | App.jsx:13-21 | the initial state satisfies all four invariants and the exact account of observed hashes |
| `Traces.RunFromInit` | App.jsx:131-198 | from the initial state every run keeps the tally bound and quiescence; runs without a mid-batch Reset also keep the observed bound, and runs that drop nothing keep the exact account |
| `Traces.StopWhenIdleIsNoOp` | App.jsx:183-188 | on an idle listener Stop changes nothing |
| `Traces.ClearedQueueDrainsNothing` | App.jsx:111-113 | after Stop or Reset, a drain attempt classifies nothing |
| `Traces.StoppedBatchStillCounts` | App.jsx:140-153 | a batch outstanding at Stop still adds its full length to `analyzed` when it completes, and no follow-up cycle is due |
| `Traces.ResetMidBatchOvercounts` | App.jsx:190-198 | Start, a one-hash delivery, Reset, then the batch's completion end with `analyzed = 1` and `observed = 0`, while `buy + sell <= analyzed` still holds |
| `Traces.StopMidBatchOverlaps` | App.jsx:183-188 | Start, a delivery, Stop, Start and another delivery end with two batches outstanding |
| `Drain.DrainCycle` | App.jsx:110-153 | a full cycle on an idle scheduler drains the head batch, counts its results, and a follow-up is due iff more than 10 hashes were queued |
| `Drain.DrainAll` | App.jsx:148-153 | cycles repeated while a follow-up is due empty the queue; `analyzed` grows by the queue length, `buy` and `sell` by the buy and sell results of all lookups, and the batch sizes follow `Schedule` |
| `Drain.ScheduleShape` | App.jsx:118-119 | the batches cover the queue, each holds 1 to 10 hashes, and all but the last are full |
| `Drain.TwentyFiveDrainAsTenTenFive` | App.jsx:118-152 | 25 queued hashes drain as the batches `[..10]`, `[10..20]` and `[20..]`, a follow-up is due after the first two only, and `analyzed` grows by 25 |
| `Dominance.Dominance` | App.jsx:33 | BUY iff buy > sell, SELL iff sell > buy, and no dominance on a tie, including 0/0 |
| `Dominance.DominanceMirrors` | App.jsx:33 | swapping the counters swaps BUY and SELL |
| `Dominance.DominanceOfResults` | App.jsx:33 | over a batch's results, BUY iff buy results outnumber sell results; adding a neutral result changes nothing |
| `Dominance.ResetHasNoDominance` | App.jsx:190-192 | after a reset the verdict is no dominance |
| `Blocks.RowOf` | App.jsx:215 | the row keeps the block number and counts the transactions, or 0 when there is no list |
| `Blocks.OnBlock` | App.jsx:214-227 | a block increments the counter and puts its row first, keeping the older rows in order and at most 100 rows in all |
| `Blocks.OnBlocksBounded` | App.jsx:217-226 | after any number of blocks, the list still holds at most 100 rows and the counter has grown by the number of blocks |
| `Blocks.TwoBlocksNewestFirst` | App.jsx:218-226 | after two blocks the later one is listed first and the earlier one second |

## Left out

- WebSocket client creation, the `watchPendingTransactions` and `watchBlocks` subscriptions and their unsubscribe handles (App.jsx:160-180, 205-231). These are I/O against a library outside this model. Deliveries are events, and a delivery can only happen while listening.
- `client.getTransaction` (App.jsx:39) is an external lookup. Its outcome is an input: `FinishBatch` takes one `Lookup` per hash of the batch.
- The stagger and cooldown timers (`setTimeout`, 50 ms per item and 100 ms), and `Promise.all` (App.jsx:123-129, 152). Only the order of events is modelled: the StartBatch/FinishBatch split and the "follow-up due" flag. A follow-up drain attempt is the `Cycle` event, which may occur at any time. This allows more runs than the source, so every invariant proved over runs also holds for the source.
- The batch-level `catch` (App.jsx:144-146). The classifier catches every lookup error itself, so that path only logs.
- Percentages and the analysis rate (App.jsx:31-32, 34). These use floating-point division and `toFixed` string formatting.
- Block timestamp formatting with `Date` and `toLocaleString` (App.jsx:216). A block row has no time field. `startBlocks` and `stopBlocks` are subscription handling and are left out with it.
- React state batching and stale closures (for example the `listeningTx` read in `startPendingTx`), the `useEffect` cleanup (App.jsx:241-249), the wallet connection (App.jsx:10), and all JSX and CSS (App.jsx:251-732).
- Classifier.LowerChar: lower-cases ASCII letters only, while `toLowerCase` covers all of Unicode. Every table entry is lower-case ASCII hex with an `x`, and no other character lower-cases into one of those characters, so table matches are the same either way.
- Classifier.Classify: hashes, addresses and calldata are character strings (`TxRef` is a string), with no hex validation. Lengths count characters where JavaScript counts UTF-16 code units; the two agree on the ASCII hex the chain returns.
