/** The identities the RPC handlers share: hashes, block-index identities
    and outpoints. */
module ChainTypes {
  /** A 256-bit hash (of a block or a transaction), kept abstract as a number. */
  type Hash = nat

  /** The identity of a `CBlockIndex` (its address in the source). */
  type Id = nat

  /** A `COutPoint`: a transaction hash and an output index. */
  type OutPoint = (Hash, nat)
}
