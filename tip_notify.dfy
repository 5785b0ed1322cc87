/**
  The tip-change snapshot behind `waitfornewblock`, `waitforblock` and
  `waitforblockheight`: `RPCNotifyBlockChange` overwrites one shared
  `CUpdatedBlock` whenever it is given a block, and the three wait calls sleep
  until a predicate over that snapshot holds. The mutex, the condition
  variable and the timeouts are not modelled; what is modelled is the
  snapshot and the three wake predicates that are evaluated against it.
*/
module TipNotify {
  import opened Wrappers
  import opened ChainTypes

  /** `CUpdatedBlock`: the hash and height of the latest reported tip. */
  datatype UpdatedBlock = UpdatedBlock(hash: Hash, height: int)

  /** The two fields of a `CBlockIndex` that the notification copies. */
  datatype BlockRef = BlockRef(hash: Hash, nHeight: int)

  /** The snapshot after a notification: a missing block leaves it alone. */
  function Notified(latest: UpdatedBlock, pindex: Option<BlockRef>): UpdatedBlock {
    match pindex
    case None => latest
    case Some(b) => UpdatedBlock(b.hash, b.nHeight)
  }

  /** The shared `latestblock`, with the notification that writes it. */
  class BlockChangeNotifier {
    var latest: UpdatedBlock

    /** A static `CUpdatedBlock` starts zeroed: null hash, height 0. */
    constructor ()
      ensures latest == UpdatedBlock(0, 0)
    {
      latest := UpdatedBlock(0, 0);
    }

    /** `RPCNotifyBlockChange`: copy the block's hash and height, if any.
        `fInitialDownload` is not consulted. */
    method Notify(fInitialDownload: bool, pindex: Option<BlockRef>)
      modifies this
      ensures latest == Notified(old(latest), pindex)
      ensures pindex.None? ==> latest == old(latest)
      ensures pindex.Some? ==> latest.hash == pindex.value.hash && latest.height == pindex.value.nHeight
    {
      if pindex.Some? {
        latest := UpdatedBlock(pindex.value.hash, pindex.value.nHeight);
      }
    }
  }

  /** The `waitfornewblock` predicate: the snapshot differs from the one
      captured before waiting, or RPC is shutting down. */
  predicate NewBlockWake(latest: UpdatedBlock, block: UpdatedBlock, running: bool) {
    latest.height != block.height || latest.hash != block.hash || !running
  }

  /** The `waitforblock` predicate: the snapshot has the wanted hash, or RPC is
      shutting down. */
  predicate HashWake(latest: UpdatedBlock, hash: Hash, running: bool) {
    latest.hash == hash || !running
  }

  /** The `waitforblockheight` predicate: the snapshot is at least as high as
      wanted, or RPC is shutting down. */
  predicate HeightWake(latest: UpdatedBlock, height: int, running: bool) {
    latest.height >= height || !running
  }

  /** `waitfornewblock` wakes exactly when the snapshot has changed since it
      was captured (or RPC stopped); a notification without a block, or one
      that repeats the captured block, lets it sleep on. */
  lemma NewBlockWakeIffChanged(captured: UpdatedBlock, pindex: Option<BlockRef>, running: bool)
    ensures NewBlockWake(Notified(captured, pindex), captured, running) <==> Notified(captured, pindex) != captured || !running
    ensures running && pindex.None? ==> !NewBlockWake(Notified(captured, pindex), captured, running)
    ensures running && pindex == Some(BlockRef(captured.hash, captured.height)) ==> !NewBlockWake(Notified(captured, pindex), captured, running)
    ensures running && pindex.Some? && pindex.value.hash != captured.hash ==> NewBlockWake(Notified(captured, pindex), captured, running)
  {
  }

  /** After a notification with a block, `waitforblock` for that block's hash
      wakes, and `waitforblockheight` wakes exactly for targets at or below the
      block's height. */
  lemma NotifiedBlockWakes(latest: UpdatedBlock, b: BlockRef, target: int, running: bool)
    ensures HashWake(Notified(latest, Some(b)), b.hash, running)
    ensures HeightWake(Notified(latest, Some(b)), target, running) <==> target <= b.nHeight || !running
  {
  }

  /** A notification without a block changes no predicate's answer. */
  lemma NoBlockNoChange(latest: UpdatedBlock, block: UpdatedBlock, hash: Hash, height: int, running: bool)
    ensures NewBlockWake(Notified(latest, None), block, running) == NewBlockWake(latest, block, running)
    ensures HashWake(Notified(latest, None), hash, running) == HashWake(latest, hash, running)
    ensures HeightWake(Notified(latest, None), height, running) == HeightWake(latest, height, running)
  {
  }

  /** Once RPC stops, every waiter wakes, whatever the snapshot. */
  lemma StopWakesAll(latest: UpdatedBlock, block: UpdatedBlock, hash: Hash, height: int)
    ensures NewBlockWake(latest, block, false)
    ensures HashWake(latest, hash, false)
    ensures HeightWake(latest, height, false)
  {
  }

  /** A sequence of notifications leaves the snapshot at the last block
      given, or unchanged if none carried a block. */
  function NotifyAll(latest: UpdatedBlock, ns: seq<Option<BlockRef>>): UpdatedBlock {
    if |ns| == 0 then latest else Notified(NotifyAll(latest, ns[..|ns| - 1]), ns[|ns| - 1])
  }

  lemma {:induction false} LastBlockWins(latest: UpdatedBlock, ns: seq<Option<BlockRef>>, i: nat)
    requires i < |ns| && ns[i].Some?
    requires forall j :: i < j < |ns| ==> ns[j].None?
    ensures NotifyAll(latest, ns) == UpdatedBlock(ns[i].value.hash, ns[i].value.nHeight)
    decreases |ns|
  {
    if i < |ns| - 1 {
      LastBlockWins(latest, ns[..|ns| - 1], i);
    }
  }
}
