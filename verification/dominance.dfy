/** The headline verdict shown over the buy and sell counters. */
module Dominance {
  import opened TxTypes
  import opened Classifier
  import opened Pipeline

  datatype Verdict = BuyDominance | SellDominance | NoDominance

  /** The direction with strictly more results wins; a tie, including no
      results at all, has no dominance. */
  function Dominance(buy: nat, sell: nat): (v: Verdict)
    ensures v == BuyDominance <==> buy > sell
    ensures v == SellDominance <==> sell > buy
    ensures v == NoDominance <==> buy == sell
  {
    if buy > sell then BuyDominance else if sell > buy then SellDominance else NoDominance
  }

  function Mirror(v: Verdict): Verdict {
    match v
    case BuyDominance => SellDominance
    case SellDominance => BuyDominance
    case NoDominance => NoDominance
  }

  /** Swapping the counters swaps the verdict. */
  lemma DominanceMirrors(buy: nat, sell: nat)
    ensures Dominance(sell, buy) == Mirror(Dominance(buy, sell))
  {
  }

  /** Over the results of a batch, buying dominates exactly when more results
      are buys than sells, and the neutral results do not matter. */
  lemma DominanceOfResults(tags: seq<Tag>)
    ensures Dominance(Tally(tags).buys, Tally(tags).sells) == BuyDominance
            <==> multiset(tags)[Buy] > multiset(tags)[Sell]
    ensures Dominance(Tally(tags).buys, Tally(tags).sells) == SellDominance
            <==> multiset(tags)[Sell] > multiset(tags)[Buy]
    ensures Dominance(Tally(tags + [Neutral]).buys, Tally(tags + [Neutral]).sells)
            == Dominance(Tally(tags).buys, Tally(tags).sells)
  {
    TallyCountsTags(tags);
    TallyCountsTags(tags + [Neutral]);
    assert multiset(tags + [Neutral]) == multiset(tags) + multiset{Neutral};
  }

  /** After a reset there is no dominance. */
  lemma ResetHasNoDominance(s: State)
    ensures Dominance(Reset(s).buy, Reset(s).sell) == NoDominance
  {
  }
}
