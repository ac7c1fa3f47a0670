/** The block listener's bookkeeping: a block counter and a newest-first list
    of block rows of bounded length. */
module Blocks {
  import opened TxTypes
  import opened Bounded

  /** Length bound of the block list. */
  const BlockCap: nat := 100

  /** A delivered block: its number and, when present, its transactions. */
  datatype Block = Block(number: nat, transactions: Option<seq<TxRef>>)

  /** One row of the block list: the block number and its transaction count. */
  datatype Row = Row(number: nat, totalTxs: nat)

  datatype BlockLog = BlockLog(count: nat, rows: seq<Row>)

  /** The row shown for a block; a block without a transaction list counts zero. */
  function RowOf(b: Block): (r: Row)
    ensures r.number == b.number
    ensures b.transactions.None? ==> r.totalTxs == 0
    ensures b.transactions.Some? ==> r.totalTxs == |b.transactions.value|
  {
    Row(b.number, if b.transactions.Some? then |b.transactions.value| else 0)
  }

  /** The block callback: count the block and put its row in front, keeping at
      most `BlockCap` rows. */
  function OnBlock(log: BlockLog, b: Block): (next: BlockLog)
    ensures next.count == log.count + 1
    ensures |next.rows| == Min(BlockCap, |log.rows| + 1)
    ensures next.rows[0] == RowOf(b)
    ensures forall k :: 1 <= k < |next.rows| ==> next.rows[k] == log.rows[k - 1]
  {
    BlockLog(log.count + 1, PrependBounded([RowOf(b)], log.rows, BlockCap))
  }

  /** Several deliveries in order. */
  function OnBlocks(log: BlockLog, bs: seq<Block>): BlockLog
    decreases |bs|
  {
    if bs == [] then log else OnBlocks(OnBlock(log, bs[0]), bs[1..])
  }

  /** The list never grows past its bound. */
  lemma {:induction false} OnBlocksBounded(log: BlockLog, bs: seq<Block>)
    requires |log.rows| <= BlockCap
    ensures |OnBlocks(log, bs).rows| <= BlockCap
    ensures OnBlocks(log, bs).count == log.count + |bs|
    decreases |bs|
  {
    if bs != [] {
      OnBlocksBounded(OnBlock(log, bs[0]), bs[1..]);
    }
  }

  /** Two blocks in a row: the later one is listed first, the earlier second. */
  lemma TwoBlocksNewestFirst(log: BlockLog, b1: Block, b2: Block)
    ensures OnBlock(OnBlock(log, b1), b2).rows[..2] == [RowOf(b2), RowOf(b1)]
  {
  }
}
