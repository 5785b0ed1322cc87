# PIVX chain-state RPC queries, modelled in Dafny

This project models four computations of the PIVX node's blockchain RPC
handlers (`src/rpc/blockchain.cpp`) and proves what they promise.

- **UTXO-set digest** (`UtxoStats`, `utxo_stats.dfy`). `GetUTXOStats` walks the
  coins cursor. It buffers the outputs of one transaction in a
  `std::map<uint32_t, Coin>` and flushes each group through `ApplyStats` into
  the hash writer and the `CCoinsStats` counters. The map is a key-sorted
  association list. The hash writer is the sequence of tokens it is fed. The
  cursor is a sequence of entries, where `None` is an entry that cannot be
  read. `GetUTXOStats` and `ApplyStats` are methods with loops. They are proved
  equal to a specification that splits the cursor into maximal runs of equal
  txid.
- **Chain tips** (`ChainTips`, `chain_tips.dfy`). `getchaintips` fills a
  `std::set` ordered by `CompareBlocksByHeight`: first with every indexed
  block, then erasing every block that is some block's `pprev`, then inserting
  the active tip. It describes each tip with its branch length and its status.
  The set is a sequence kept strictly ordered by the comparator. A block
  pointer is an `Id`, which also breaks ties the way the pointer comparison
  does.
- **Block-range statistics** (`BlockRange`, `block_range.dfy`):
  - `validaterange` is a function that returns the interval or the error;
  - the `getblockindexstats` block loop, transaction loop, input loop and
    output loop are methods, proved equal to fold functions;
  - the start check of `getfeeinfo` is a function, and `getfeeinfo` itself is
    a method that delegates to `getblockindexstats`.
- **Tip-change snapshot** (`TipNotify`, `tip_notify.dfy`).
  `RPCNotifyBlockChange` updates a `BlockChangeNotifier` object whose field is
  the shared `CUpdatedBlock`. The wait predicates of `waitfornewblock`,
  `waitforblock` and `waitforblockheight` are pure predicates over that
  snapshot.

`Wrappers` (`wrappers.dfy`) holds the `Option` and `Result` types. `ChainTypes`
(`chain_types.dfy`) holds the identities the handlers share: hashes, block-index
identities and outpoints.

Some facts come from headers that are not part of this model:
- The block-status bits are taken from `chain.h`: `BLOCK_VALID_TREE = 2`,
  `BLOCK_VALID_SCRIPTS = 5`, `BLOCK_VALID_MASK = 7`, and
  `BLOCK_FAILED_MASK = 96`, the union of `BLOCK_FAILED_VALID = 32` and
  `BLOCK_FAILED_CHILD = 64`.
- `CBlock::IsProofOfStake()` is "the block has a second transaction, and it is a
  coinstake" (`Block.IsProofOfStake`).
- `CBlockIndex::IsValid(n)` is "no failure bit set, and the validity level is
  at least `n`".
- `CChain::FindFork` is modelled as "the highest ancestor of the block, the
  block itself included, that lies on the active chain". `chain.cpp` is not
  part of this model.

Some behaviours of the code are worth spelling out:
- Tips of equal height are ordered by block identity, which stands for the
  pointer comparison.
- `getfeeinfo(n)` covers heights `best - n` to `best - 1`, so the tip is not
  included (`FeeInfoWindow`). `n = 0` passes `getfeeinfo`'s own check and is
  then refused by `validaterange` as a range that is not positive.
- `validaterange` raises the start to `minHeightStart` only when the range
  reaches that height. So a range lying entirely below height 1 keeps its
  start. A negative start then fails in `getblockindexstats` as "invalid
  block height".

## Model

| member | source | states |
|---|---|---|
| `UtxoStats.ApplyStats` | src/rpc/blockchain.cpp:669-684 | For a non-empty group, the stream grows by the txid, then the header code of the lowest-index coin, then `n+1`, script and value of each output in ascending index order, then `VARINT(0)`. `nTransactions` grows by one, `nTransactionOutputs` by the group size, and `nTotalAmount` by the sum of the group's values. |
| `UtxoStats.GetUTXOStats` | src/rpc/blockchain.cpp:687-722 | The result is the specification `UtxoStatsOf`: no stats if any entry is unreadable. Otherwise the stats of flushing every maximal run of equal txid, in cursor order, after the best-block hash, with the best height and disk size. |
| `UtxoStats.ReadRecord` | src/rpc/blockchain.cpp:704-711 | One loop pass flushes the buffer exactly when the txid changes, and then buffers the record. |
| `UtxoStats.FlushPending` | src/rpc/blockchain.cpp:716-718 | After the loop, the last non-empty buffer is flushed, completing the flush of all runs. |
| `UtxoStats.Put` | src/rpc/blockchain.cpp:710 | `outputs[key.n] = coin` keeps the buffer strictly sorted by output index. |
| `UtxoStats.PutToMap` | src/rpc/blockchain.cpp:710 | The buffer's map is updated at `n`, and the buffer grows only when `n` is a new index. |
| `UtxoStats.BufferKeys` | src/rpc/blockchain.cpp:700-711 | A group's buffer holds exactly the output indices that occur in the group. |
| `UtxoStats.BufferLastWrite` | src/rpc/blockchain.cpp:710 | A later record with the same output index replaces the earlier one. |
| `UtxoStats.HeaderFromLowestIndex` | src/rpc/blockchain.cpp:672-673 | The header code is taken from the coin with the lowest output index. |
| `UtxoStats.GroupOrderIrrelevant` | src/rpc/blockchain.cpp:705-710 | Two orderings of the same records of one group, with distinct indices, give the same buffer. |
| `UtxoStats.RunsSingle` | src/rpc/blockchain.cpp:705-710 | A non-empty group of one txid is flushed as a single run. |
| `UtxoStats.RunsAppend` | src/rpc/blockchain.cpp:705-710 | Where the txid changes between two stretches of records, the runs of the whole are the runs of the first stretch followed by those of the second. |
| `UtxoStats.FlushRunsAppend` | src/rpc/blockchain.cpp:669-684 | Flushing two lists of runs one after the other is flushing their concatenation. |
| `UtxoStats.DigestAroundGroup` | src/rpc/blockchain.cpp:697-720 | Over records `p + g + q`, where `g` is a whole txid group, the digest is that of `p`, then `g` flushed as one group, then the runs of `q`. |
| `UtxoStats.DigestGroupOrder` | src/rpc/blockchain.cpp:669-710 | Reordering the records of one whole txid group (with distinct output indices) between the same neighbours leaves the digest unchanged: the same stream, counts and total. |
| `UtxoStats.UtxoStatsGroupOrder` | src/rpc/blockchain.cpp:697-722 | Two readable cursors that differ only in the order of one txid group give the same statistics. |
| `UtxoStats.HeaderCodeInjective` | src/rpc/blockchain.cpp:673 | `nHeight*4 + 2*coinbase + coinstake` determines the height and both flags. |
| `UtxoStats.DecodeEncodeGroups` | src/rpc/blockchain.cpp:669-684 | The per-group framing decodes back to the frames, so no two frame sequences share a stream. |
| `UtxoStats.StreamRoundTrip` | src/rpc/blockchain.cpp:697-718 | The whole stream decodes back to the best-block hash and the frames. |
| `UtxoStats.RunsConcat` | src/rpc/blockchain.cpp:705-710 | The runs the loop flushes partition the cursor in order. |
| `UtxoStats.RunsSameTxid` | src/rpc/blockchain.cpp:705-710 | Every run has a single txid. |
| `UtxoStats.RunsMaximal` | src/rpc/blockchain.cpp:705-710 | Neighbouring runs have different txids. |
| `UtxoStats.FlushRunsStream` | src/rpc/blockchain.cpp:705-718 | Flushing appends exactly the encoded frames and counts one transaction per run. |
| `UtxoStats.DigestStream` | src/rpc/blockchain.cpp:697-719 | The digested stream is the best-block hash and one frame per maximal run. `nTransactions` is the number of runs, and the stream decodes back to that hash and those frames. |
| `UtxoStats.DigestCountsUnspent` | src/rpc/blockchain.cpp:675-681 | On a cursor whose txids are contiguous, `nTransactionOutputs` is the number of distinct outpoints and `nTotalAmount` is the sum of their values, a later record for an outpoint replacing an earlier one. |
| `UtxoStats.UnreadableEntryFails` | src/rpc/blockchain.cpp:704-713 | The digest fails exactly when some entry is unreadable. Otherwise its stream starts with the best-block hash. |
| `ChainTips.BeforeIsStrictTotalOrder` | src/rpc/blockchain.cpp:1013-1024 | `CompareBlocksByHeight` is irreflexive, asymmetric, transitive and total on distinct blocks. So unequal blocks of equal height never compare equal. |
| `ChainTips.Insert` | src/rpc/blockchain.cpp:1067 | `setTips.insert` keeps the set ordered and adds exactly the element. |
| `ChainTips.Erase` | src/rpc/blockchain.cpp:1068-1072 | `setTips.erase` keeps the set ordered and removes exactly the element. |
| `ChainTips.FindFork` | src/rpc/blockchain.cpp:1084 | The fork point is on the active chain, is an ancestor of the block, and is the highest such ancestor. |
| `ChainTips.BranchLenZeroIffActive` | src/rpc/blockchain.cpp:1084-1089 | The branch length is never negative. It is 0 exactly for a block on the active chain, which is exactly when the status is `active`. |
| `ChainTips.ActiveLeafIsTip` | src/rpc/blockchain.cpp:1064-1075 | A block without children that is on the active chain is the active tip. |
| `ChainTips.OnlyTheTipIsActive` | src/rpc/blockchain.cpp:1075-1089 | Among the reported blocks, only the active tip has status `active`. |
| `ChainTips.StatusMeaning` | src/rpc/blockchain.cpp:1086-1106 | Each status is the first matching test: active, then a failure bit, then `nChainTx == 0`, then scripts valid, then tree valid, else unknown. |
| `ChainTips.ForkExample` | src/rpc/blockchain.cpp:1064-1106 | For a chain R, A, B, C with a fork A, D, the tips are exactly C (active, branch length 0) and D (not active, branch length 1). |
| `ChainTips.AllBlocks` | src/rpc/blockchain.cpp:1066-1067 | The set holds exactly the indexed blocks, in comparator order. |
| `ChainTips.EraseParents` | src/rpc/blockchain.cpp:1068-1072 | Exactly the blocks that are some block's `pprev` are removed. |
| `ChainTips.DescribeAll` | src/rpc/blockchain.cpp:1078-1110 | There is one descriptor per tip, in set order. |
| `ChainTips.GetChainTips` | src/rpc/blockchain.cpp:1060-1113 | The reported ids are exactly the blocks without children plus the active tip, each once. They are strictly ordered by height descending, with ties broken by identity, and each carries its height, hash, branch length and status. |
| `TipNotify.BlockChangeNotifier.constructor` | src/rpc/blockchain.cpp:38-45 | The static snapshot starts zeroed. |
| `TipNotify.BlockChangeNotifier.Notify` | src/rpc/blockchain.cpp:209-217 | Given a block, the snapshot becomes its hash and height. Without a block, it is unchanged. |
| `TipNotify.NewBlockWakeIffChanged` | src/rpc/blockchain.cpp:246-251 | `waitfornewblock` wakes exactly when the snapshot differs from the captured one, or RPC stopped. A notification without a block, or one repeating the captured block, lets it sleep. |
| `TipNotify.NotifiedBlockWakes` | src/rpc/blockchain.cpp:290-341 | After a block is notified, `waitforblock` for its hash wakes, and `waitforblockheight` wakes exactly for targets at or below its height. |
| `TipNotify.NoBlockNoChange` | src/rpc/blockchain.cpp:211-216 | A notification without a block changes no wait predicate's answer. |
| `TipNotify.StopWakesAll` | src/rpc/blockchain.cpp:249-341 | When RPC stops, every wait predicate holds. |
| `TipNotify.LastBlockWins` | src/rpc/blockchain.cpp:209-217 | After a series of notifications, the snapshot is the last block notified. |
| `BlockRange.ValidateRange` | src/rpc/blockchain.cpp:1260-1291 | It rejects fewer than two parameters, then `start > best`, then `range < 1`, then `end > best`, where `end = start + range - 1`; that last error carries `end`. It succeeds exactly otherwise, with `start <= end <= best`. The start is raised to `minHeightStart` only when `start < min <= end`. |
| `BlockRange.Range32AgreesWithoutOverflow` | src/rpc/blockchain.cpp:1282 | When `start + range - 1` fits in an `int`, the 32-bit code and the unbounded function agree. |
| `BlockRange.Range32OverflowInvertsInterval` | src/rpc/blockchain.cpp:1282-1290 | With best 100, start 10 and range `2^31 - 1`, the 32-bit code accepts the interval `(10, -2147483640)`. The unbounded function rejects it. |
| `BlockRange.FeeInfoStart` | src/rpc/blockchain.cpp:1595-1603 | `getfeeinfo` accepts exactly `0 <= n < best`, with start `best - n >= 1`. |
| `BlockRange.FeeInfoWindow` | src/rpc/blockchain.cpp:1595-1612 | `getfeeinfo(n)` asks for heights `best - n` to `best - 1` when `n >= 1`. `n = 0` is refused as a range that is not positive. |
| `BlockRange.InitStats` | src/rpc/blockchain.cpp:1461-1472 | All totals start at zero, and both spend maps start with a zero for every denomination of the list and nothing else. |
| `BlockRange.Bump` | src/rpc/blockchain.cpp:1503-1512 | `map[d]++` inserts a zero for a missing denomination, adds one at `d`, and leaves every other key alone. |
| `BlockRange.InputStepCounts` | src/rpc/blockchain.cpp:1503-1512 | Without `fFeeOnly`, one zerocoin spend (or public spend) adds one to `mapSpendCount` (or `mapPublicSpendCount`) at its denomination, inserting the denomination if missing. Every other counter stays as it was. |
| `BlockRange.InputsFrame` | src/rpc/blockchain.cpp:1502-1520 | Reading inputs adds the ordinary inputs' values to `nValueIn` and changes nothing else but the spend counters. Under `fFeeOnly` those stay too. Otherwise each counter grows by the number of spends of its kind and denomination among the inputs. |
| `BlockRange.MissingPrevoutFails` | src/rpc/blockchain.cpp:1514-1519 | An ordinary input whose previous output cannot be found fails the input loop of its transaction. |
| `BlockRange.TxsMissingPrevoutFails` | src/rpc/blockchain.cpp:1496-1519 | A transaction the loop reads (not the coinbase, and not a coinstake without zerocoin spends) with an ordinary input whose previous output cannot be found fails the transaction loop. |
| `BlockRange.BlocksMissingPrevoutFails` | src/rpc/blockchain.cpp:1483-1519 | Such a transaction in a readable block of the run fails the block loop. |
| `BlockRange.IndexStatsMissingPrevoutFails` | src/rpc/blockchain.cpp:1450-1519 | Such a transaction in a readable block between the validated start and end heights fails `getblockindexstats`. A skipped transaction's inputs are never looked up, so they cannot fail the call. |
| `BlockRange.TxStepEffect` | src/rpc/blockchain.cpp:1496-1536 | Coinbase transactions, and coinstakes without zerocoin spends, change nothing. A transaction with zerocoin spends adds no fee. Any other transaction adds its fee to `nFees_all`, and to `nFees` (and its size to `nBytes`) only without mint outputs. Without `fFeeOnly`, every transaction that is not skipped adds its spends to the counters. |
| `BlockRange.TxsEffect` | src/rpc/blockchain.cpp:1496-1537 | Over a block's transactions, the fee totals grow by the sums of the transactions' own fees, `nBytes` grows by their sizes, the transaction counters are untouched. The spend counters grow by the spends of the transactions that are not skipped, or stay as they were under `fFeeOnly`. |
| `BlockRange.BlocksEffect` | src/rpc/blockchain.cpp:1483-1545 | Over the range, `txcount_all` counts every transaction, and `txcount` counts all but one per block (two in proof-of-stake blocks). `ttlfee_all`, `ttlfee` and `txbytes` grow by the per-block totals summed over the range. The spend counters grow by every spend read in the range, or stay as they were under `fFeeOnly`. |
| `BlockRange.IndexStatsTotals` | src/rpc/blockchain.cpp:1450-1545 | After a successful call, over the validated interval, the accumulators hold both transaction counts, both fee totals and the byte total. Each spend map reads, for every denomination, the number of its spends of that kind in the range (zero under `fFeeOnly`). The maps hold the listed denominations plus any other that was spent. |
| `BlockRange.IndexStatsReport` | src/rpc/blockchain.cpp:1450-1560 | The reply of a successful call holds those counts and totals. Without `fFeeOnly` it lists, for each listed denomination in order, its private and its public spends in the range. A spent denomination outside the list is counted but not reported. Under `fFeeOnly` the reply has no spend objects. |
| `BlockRange.MissingBlockFails` | src/rpc/blockchain.cpp:1484-1487 | A block of the range that cannot be read fails the call. |
| `BlockRange.FeeInfoKeepsSpendCounts` | src/rpc/blockchain.cpp:1604-1612 | `getfeeinfo` leaves every spend counter at zero. |
| `BlockRange.RunningDifference` | src/rpc/blockchain.cpp:1489-1534 | The block's running `nValueIn - nValueOut` is the fees of the transactions so far, plus the ordinary inputs of their zerocoin-spend transactions, which exit at 1523-1524 after adding to `nValueIn`. |
| `BlockRange.TxStepRunning` | src/rpc/blockchain.cpp:1496-1536 | On running sums, a transaction adds its ordinary inputs to `nValueIn` and, when its fee is taken, its outputs to `nValueOut`. It is then charged the new difference. Its zerocoin spends raise the spend counters unless `fFeeOnly` is set. |
| `BlockRange.AsWrittenEffect` | src/rpc/blockchain.cpp:1489-1536 | Over a whole block as written, `nValueIn` and `nValueOut` end as the block's sums. Each fee-counted transaction adds the running difference up to itself to `ttlfee_all` (and to `ttlfee` without mints), not its own fee. `txbytes`, the transaction counts and the spend counters are as in the corrected loop. |
| `BlockRange.AsWrittenFailsAlike` | src/rpc/blockchain.cpp:1496-1536 | The loop as written fails exactly when the corrected loop does, whatever sums it starts from. |
| `BlockRange.AsWrittenBlockEffect` | src/rpc/blockchain.cpp:1483-1537 | A block read as written succeeds exactly when the corrected block step does. It then equals that step's result except for `ttlfee_all` and `ttlfee`, which hold the running charges instead of the transactions' own fees. |
| `BlockRange.RunningSumDoubleCountsFees` | src/rpc/blockchain.cpp:1489-1536 | For a coinbase and two spends with fees 1 and 2, the loop as written gives `ttlfee_all = 4`, and the per-transaction loop gives 3. |
| `BlockRange.RewardOnlyBlock` | src/rpc/blockchain.cpp:1489-1499 | A proof-of-stake block holding only its coinbase and coinstake adds 2 to `txcount_all`, 0 to `txcount`, and no fee. |
| `BlockRange.FiveAndThreeIntoSeven` | src/rpc/blockchain.cpp:1514-1536 | A transaction spending 5 and 3 into an output of 7 pays a fee of 1, counted in both fee totals. |
| `BlockRange.AddOutputs` | src/rpc/blockchain.cpp:1527-1529 | The output loop adds the sum of the output values. |
| `BlockRange.ReadInputs` | src/rpc/blockchain.cpp:1502-1520 | The input loop computes the input fold, stopping at the first missing previous output. |
| `BlockRange.ReadTx` | src/rpc/blockchain.cpp:1496-1536 | One pass of the transaction loop, with its sums started at zero, is the transaction step. |
| `BlockRange.ReadBlockTxs` | src/rpc/blockchain.cpp:1489-1537 | One pass of the block loop after reading is the block step: the transaction counts, then every transaction in order. |
| `BlockRange.GetBlockIndexStats` | src/rpc/blockchain.cpp:1450-1545 | The result is the validated interval's blocks folded from the start height to the end height, each once and in chain order. The error is the first failure met: range validation, then a start below genesis, then an unreadable block or a missing previous output. |
| `BlockRange.GetFeeInfo` | src/rpc/blockchain.cpp:1595-1612 | The start check, then `getblockindexstats` with `[best - n, n]` and `fFeeOnly` set. |

## Findings

| source | as written | input that shows it | evidently intended | confidence | as-written member | corrected member |
|---|---|---|---|---|---|---|
| src/rpc/blockchain.cpp:1489-1534 | `nValueIn` and `nValueOut` are declared once per block, so each transaction adds the block's running `in - out` to the fee totals. Every earlier transaction's fee is counted again, and so are the ordinary inputs of earlier zerocoin-spend transactions. | A block with a coinbase, a spend of 5 into 4, and a spend of 3 into 1: `ttlfee_all` is 1 + (8 - 5) = 4 | Each transaction adds its own fee, 1 + 2 = 3 | high (not executed) | `BlockRange.RunningSumDoubleCountsFees` and `BlockRange.AsWrittenEffect` (`BlockRange.ApplyTxsAsWritten`, `BlockRange.BlockStepAsWritten`) | `BlockRange.TxsEffect` (`BlockRange.ApplyTxs`) |
| src/rpc/blockchain.cpp:1282-1290 | `heightEnd = heightStart + range - 1` is computed in 32-bit `int`. A large range wraps the end negative, and it passes the `heightEnd > nBestHeight` check. | best 100, start 10, range 2147483647: the end is -2147483640 and the range is accepted with start > end | Reject the range as ending beyond the best height | medium (signed overflow is undefined behaviour in C++, wrap-around assumed; not executed) | `BlockRange.Range32OverflowInvertsInterval` (`BlockRange.ValidateRange32`) | `BlockRange.ValidateRange` |

The rest of the model uses the corrected members:
- `GetBlockIndexStats` starts `nValueIn` and `nValueOut` afresh for each transaction, as in `ReadTx`.
- Heights are unbounded integers.

## Left out

- JSON-RPC glue is not modelled: parameter parsing and typing (`get_int`, `get_bool`), help texts, `UniValue` output and the command table. The reply of `getblockindexstats` is modelled as a record (`BlockRange.Report`) with (denomination, count) entries in place of the `denom_%d` keys. The numeric parameters of `validaterange` are a `seq<int>`, and `fFeeOnly` is a plain argument.
- `GetDifficulty` is not modelled, because it uses floating point.
- `feeperkb` (`CFeeRate::GetFeePerK`) is not modelled. Its source is not part of this model, and `nFees` and `nBytes` are reported instead.
- The locking and waiting are not modelled: `cs_main`, `cs_blockchange`, `cond_blockchange.wait`/`wait_for`, timeouts and `interruption_point`. Only the snapshot and the wait predicates are.
- `IsRPCRunning()` is a boolean parameter of the predicates.
- Storage is not modelled:
  - the coins cursor is a sequence of entries;
  - `ReadBlockFromDisk` is a map from block identity to block (a missing block fails);
  - `GetTransaction` together with `vout[prevout.n]` is a map from outpoint to value (a missing outpoint fails);
  - `EstimateSize` and the best height are parameters;
  - an out-of-range `prevout.n` is treated like a missing outpoint.
- Hashing and byte encodings are not modelled. `CHashWriter`'s SHA256, the VARINT byte encoding and the script serialization are abstract tokens. `GetSerializeSize` is a transaction's `size` field.
- The zerocoin internals are not modelled: `HasZerocoinSpendInputs`, `HasZerocoinMintOutputs`, `IsZerocoinSpend`, `IsZerocoinPublicSpend` and `IntToZerocoinDenomination`. They are fields of the transaction and input datatypes. `zerocoinDenomList` is a parameter.
- The `CAmount` and `int64_t` totals, and the `uint64_t` counters of `CCoinsStats`, are unbounded. Their overflow is not modelled.
- `UtxoStats.EncodeOut`: the output index is an unbounded `nat`, not the source's `uint32_t`. So `VARINT(output.first + 1)` never wraps in the model. In the source, index `0xFFFFFFFF` would wrap to `VARINT(0)`, the group terminator, and the round-trip lemmas (`DecodeEncodeGroups`, `StreamRoundTrip`, `DigestStream`) would not hold for it. No transaction can have that many outputs within a block, so the wrap is left out.
- `UtxoStats.DigestCountsUnspent` assumes a cursor whose txids are contiguous, as the coins database's key order provides. On a non-contiguous cursor the counters describe the runs, not the distinct outpoints.
- `GetBlockIndexStats` requires a non-empty active chain, which always holds the genesis block. It never reaches `Next` past the tip, because the end height is at most the best height.
- `getchaintips`'s ordering is proved for the model's identity tie-break. The real order of equal-height tips depends on memory addresses.
- The other RPC handlers of the file are not modelled: `getblock`, `getblockheader`, `gettxout`, `verifychain`, `invalidateblock`, `getserials` and the rest.
