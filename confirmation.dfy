/**
 * The confirmation window. A query picks either the confirmed records, buried under at
 * least `confirmThreshold` blocks below the best block, or the unconfirmed rest; the
 * window is a `range` clause on `blockNumber`, rebuilt by every query from the live height.
 */
module Confirmation {

  /** A `range` clause on the block number: `lte` or `gt`. */
  datatype Range = AtMost(lte: int) | Above(gt: int)

  /**
   * The range clause the asset queries build from the best block and the threshold. A
   * block is in the confirmed window exactly when at least `confirmThreshold` blocks
   * separate it from the best block, and in the unconfirmed window exactly when not.
   */
  function ResolveWindow(currentBestBlockNumber: int, confirmThreshold: int, isConfirmed: bool): (range: Range)
    ensures forall blockNumber :: InRange(blockNumber, range)
              <==> (isConfirmed <==> currentBestBlockNumber - blockNumber >= confirmThreshold)
  {
    if isConfirmed then AtMost(currentBestBlockNumber - confirmThreshold)
    else Above(currentBestBlockNumber - confirmThreshold)
  }

  predicate InRange(blockNumber: int, range: Range)
  {
    match range
    case AtMost(lte) => blockNumber <= lte
    case Above(gt) => blockNumber > gt
  }

  /** For a fixed best block and threshold, every block lies in exactly one of the two windows. */
  lemma WindowsPartition(blockNumber: int, currentBestBlockNumber: int, confirmThreshold: int)
    ensures InRange(blockNumber, ResolveWindow(currentBestBlockNumber, confirmThreshold, true))
            != InRange(blockNumber, ResolveWindow(currentBestBlockNumber, confirmThreshold, false))
  {
  }
}
