/**
  Block-range statistics: `validaterange` turns the `(start, range)`
  parameters into an inclusive height interval of the active chain,
  `getblockindexstats` walks that interval block by block accumulating
  transaction counts, fees, sizes and zerocoin spend counters, and
  `getfeeinfo` asks for the last `n` blocks with only the fee totals.

  Heights, amounts and counters are unbounded integers here; the 32-bit
  arithmetic of `validaterange` is written out separately in
  `ValidateRange32`, and the overflow it admits is one of the findings.
*/
module BlockRange {
  import opened Wrappers
  import opened ChainTypes

  /** A zerocoin denomination, kept opaque. */
  type Denom = nat

  /** The errors a call can end with (the JSON-RPC error and its message). */
  datatype Error =
    | NotEnoughParams             // "Not enough parameters in validaterange"
    | StartOutOfRange(start: int) // "Invalid starting block (%d). Out of range."
    | RangeNotPositive            // "Invalid block range. Must be strictly positive."
    | EndOutOfRange(end: int)     // "Invalid ending block (%d). Out of range."
    | InvalidBlockHeight          // "invalid block height"
    | ReadBlockFailed             // "failed to read block from disk"
    | ReadTxFailed                // "failed to read tx from disk"
    | InvalidStartHeight          // "invalid start height" (getfeeinfo)

  // ---------------------------------------------------------------------
  // validaterange
  // ---------------------------------------------------------------------

  /** `validaterange` over unbounded integers: on success, the inclusive
      interval `(heightStart, heightEnd)`. `nBestHeight` is
      `chainActive.Height()`. */
  function ValidateRange(params: seq<int>, nBestHeight: int, minHeightStart: int): (r: Result<(int, int), Error>)
    ensures |params| < 2 ==> r == Err(NotEnoughParams)
    ensures |params| >= 2 && params[0] > nBestHeight ==> r == Err(StartOutOfRange(params[0]))
    ensures |params| >= 2 && params[0] <= nBestHeight && params[1] < 1 ==> r == Err(RangeNotPositive)
    ensures |params| >= 2 && params[0] <= nBestHeight && params[1] >= 1 && params[0] + params[1] - 1 > nBestHeight ==>
              r == Err(EndOutOfRange(params[0] + params[1] - 1))
    ensures r.Ok? <==> |params| >= 2 && params[0] <= nBestHeight && params[1] >= 1 && params[0] + params[1] - 1 <= nBestHeight
    ensures r.Ok? ==> r.value.0 <= r.value.1 <= nBestHeight
    ensures r.Ok? ==> r.value.1 - params[0] + 1 == params[1]
    ensures r.Ok? ==> (r.value.0 < minHeightStart <==> r.value.1 < minHeightStart && params[0] < minHeightStart)
    ensures r.Ok? && r.value.0 != params[0] ==> r.value.0 == minHeightStart > params[0]
  {
    if |params| < 2 then Err(NotEnoughParams)
    else
      var heightStart := params[0];
      if heightStart > nBestHeight then Err(StartOutOfRange(heightStart))
      else
        var range := params[1];
        if range < 1 then Err(RangeNotPositive)
        else
          var heightEnd := heightStart + range - 1;
          var start := if heightStart < minHeightStart && heightEnd >= minHeightStart then minHeightStart else heightStart;
          if heightEnd > nBestHeight then Err(EndOutOfRange(heightEnd))
          else Ok((start, heightEnd))
  }

  /** A C++ `int`. */
  type Int32 = x: int | -0x8000_0000 <= x < 0x8000_0000

  /** Two's complement wrap-around of a 32-bit `int`. */
  function Wrap32(x: int): (w: Int32)
    ensures (w - x) % 0x1_0000_0000 == 0
    ensures -0x8000_0000 <= x < 0x8000_0000 ==> w == x
  {
    var m := x % 0x1_0000_0000;
    if m >= 0x8000_0000 then m - 0x1_0000_0000 else m
  }

  /** `validaterange` as compiled: `heightStart + range - 1` is computed in
      32-bit `int` and wraps around. */
  function ValidateRange32(params: seq<Int32>, nBestHeight: Int32, minHeightStart: Int32): (r: Result<(Int32, Int32), Error>)
    ensures r.Ok? ==> |params| >= 2 && params[1] >= 1 && r.value.1 <= nBestHeight
  {
    if |params| < 2 then Err(NotEnoughParams)
    else
      var heightStart := params[0];
      if heightStart > nBestHeight then Err(StartOutOfRange(heightStart))
      else
        var range := params[1];
        if range < 1 then Err(RangeNotPositive)
        else
          var heightEnd := Wrap32(heightStart + range - 1);
          var start := if heightStart < minHeightStart && heightEnd >= minHeightStart then minHeightStart else heightStart;
          if heightEnd > nBestHeight then Err(EndOutOfRange(heightEnd))
          else Ok((start, heightEnd))
  }

  /** Without overflow, the 32-bit function is the unbounded one. */
  lemma Range32AgreesWithoutOverflow(params: seq<Int32>, nBestHeight: Int32, minHeightStart: Int32)
    requires |params| >= 2 ==> (params[0] as int) + (params[1] as int) - 1 < 0x8000_0000
    ensures ValidateRange32(params, nBestHeight, minHeightStart) == ValidateRange(params, nBestHeight, minHeightStart)
  {
  }

  /** A range so large that the end wraps negative is accepted by the 32-bit
      code, and yields an interval whose start lies after its end; the
      unbounded function rejects it as ending beyond the best height. */
  lemma Range32OverflowInvertsInterval()
    ensures ValidateRange32([10, 0x7fff_ffff], 100, 1) == Ok((10, -0x7fff_fff8))
    ensures ValidateRange([10, 0x7fff_ffff], 100, 1) == Err(EndOutOfRange(0x8000_0008))
  {
    assert Wrap32(10 + 0x7fff_ffff - 1) == -0x7fff_fff8;
  }

  // ---------------------------------------------------------------------
  // getfeeinfo's start height
  // ---------------------------------------------------------------------

  /** `getfeeinfo`'s check: the range of `nBlocks` blocks starts at
      `nBestHeight - nBlocks`, which must be a positive height. */
  function FeeInfoStart(nBlocks: int, nBestHeight: int): (r: Result<int, Error>)
    ensures r.Ok? <==> 0 <= nBlocks < nBestHeight
    ensures r.Ok? ==> r.value >= 1 && r.value + nBlocks == nBestHeight
    ensures r.Err? ==> r.error == InvalidStartHeight
  {
    var nStartHeight := nBestHeight - nBlocks;
    if nBlocks < 0 || nStartHeight <= 0 then Err(InvalidStartHeight)
    else Ok(nStartHeight)
  }

  /** The window `getfeeinfo(n)` asks `getblockindexstats` for: the `n` blocks
      below the tip, the tip itself excluded; `n == 0` passes the start check
      but is then refused as a range that is not positive. */
  lemma FeeInfoWindow(nBlocks: int, nBestHeight: int)
    requires FeeInfoStart(nBlocks, nBestHeight).Ok?
    ensures var s := FeeInfoStart(nBlocks, nBestHeight).value;
      && (nBlocks >= 1 ==> ValidateRange([s, nBlocks], nBestHeight, 1) == Ok((nBestHeight - nBlocks, nBestHeight - 1)))
      && (nBlocks == 0 ==> ValidateRange([s, nBlocks], nBestHeight, 1) == Err(RangeNotPositive))
  {
  }

  // ---------------------------------------------------------------------
  // Blocks and transactions, as getblockindexstats reads them
  // ---------------------------------------------------------------------

  /** An input: an ordinary one spending `prevout`, a zerocoin spend, or a
      zerocoin public spend, the latter two with their denomination. */
  datatype TxIn = Plain(prevout: OutPoint) | ZcSpend(denom: Denom) | ZcPublicSpend(denom: Denom)

  /** A transaction: its kind flags, inputs, output values and serialized
      size. `hasZcSpendInputs` and `hasZcMintOutputs` are the answers of
      `HasZerocoinSpendInputs` and `HasZerocoinMintOutputs`. */
  datatype Tx = Tx(
    isCoinBase: bool,
    isCoinStake: bool,
    hasZcSpendInputs: bool,
    hasZcMintOutputs: bool,
    vin: seq<TxIn>,
    vout: seq<int>,
    size: nat)

  datatype Block = Block(vtx: seq<Tx>) {
    /** `CBlock::IsProofOfStake()`: the second transaction is a coinstake. */
    predicate IsProofOfStake() {
      |vtx| > 1 && vtx[1].isCoinStake
    }
  }

  /** The reply of `getblockindexstats` (`feeperkb` aside); a spend object
      is a list of (denomination, count) entries. */
  datatype Report = Report(
    txcount: int,
    txcountAll: int,
    spendcount: Option<seq<(Denom, int)>>,
    publicspendcount: Option<seq<(Denom, int)>>,
    txbytes: int,
    ttlfee: int,
    ttlfeeAll: int)

  /** The accumulators of `getblockindexstats`. */
  datatype Stats = Stats(
    nFees: int,
    nFeesAll: int,
    nBytes: int,
    nTxCount: int,
    nTxCountAll: int,
    spendCount: map<Denom, int>,
    publicSpendCount: map<Denom, int>)

  /** The accumulators plus the `nValueIn`/`nValueOut` sums of the
      transaction being read. */
  datatype Scan = Scan(st: Stats, nValueIn: int, nValueOut: int)

  /** Zero totals, and a zero counter for every denomination of the list. */
  function InitStats(denomList: seq<Denom>): (st: Stats)
    ensures st.nFees == st.nFeesAll == st.nBytes == st.nTxCount == st.nTxCountAll == 0
    ensures forall d :: d in st.spendCount <==> d in denomList
    ensures st.spendCount.Keys == st.publicSpendCount.Keys
    ensures forall d :: d in denomList ==> st.spendCount[d] == 0 && st.publicSpendCount[d] == 0
  {
    var zeros := map d | d in denomList :: 0;
    Stats(0, 0, 0, 0, 0, zeros, zeros)
  }

  /** `m[d]++` on a `std::map`, which first inserts a zero for a missing key. */
  function Bump(m: map<Denom, int>, d: Denom): (m': map<Denom, int>)
    ensures m'.Keys == m.Keys + {d}
    ensures m'[d] == (if d in m then m[d] else 0) + 1
    ensures forall e :: e in m && e != d ==> m'[e] == m[e]
  {
    m[d := (if d in m then m[d] else 0) + 1]
  }

  function Sum(xs: seq<int>): int {
    if |xs| == 0 then 0 else Sum(xs[..|xs| - 1]) + xs[|xs| - 1]
  }

  /** The first `continue`: coinbase, and coinstake without zerocoin spends. */
  predicate Skipped(tx: Tx) {
    tx.isCoinBase || (tx.isCoinStake && !tx.hasZcSpendInputs)
  }

  /** The transactions whose fee is taken. */
  predicate FeeCounted(tx: Tx) {
    !Skipped(tx) && !tx.hasZcSpendInputs
  }

  /** One pass of the input loop. */
  function InputStep(fFeeOnly: bool, prevouts: map<OutPoint, int>, s: Scan, txin: TxIn): Result<Scan, Error> {
    match txin
    case ZcSpend(d) =>
      Ok(if fFeeOnly then s else s.(st := s.st.(spendCount := Bump(s.st.spendCount, d))))
    case ZcPublicSpend(d) =>
      Ok(if fFeeOnly then s else s.(st := s.st.(publicSpendCount := Bump(s.st.publicSpendCount, d))))
    case Plain(p) =>
      if p in prevouts then Ok(s.(nValueIn := s.nValueIn + prevouts[p])) else Err(ReadTxFailed)
  }

  /** The input loop over `vin`, stopping at the first failure. */
  function ApplyInputs(fFeeOnly: bool, prevouts: map<OutPoint, int>, s: Scan, vin: seq<TxIn>): Result<Scan, Error> {
    if |vin| == 0 then Ok(s)
    else
      match ApplyInputs(fFeeOnly, prevouts, s, vin[..|vin| - 1])
      case Err(e) => Err(e)
      case Ok(s1) => InputStep(fFeeOnly, prevouts, s1, vin[|vin| - 1])
  }

  /** The body of the transaction loop, for one transaction. */
  function TxStep(fFeeOnly: bool, prevouts: map<OutPoint, int>, s: Scan, tx: Tx): Result<Scan, Error> {
    if Skipped(tx) then Ok(s)
    else
      match ApplyInputs(fFeeOnly, prevouts, s, tx.vin)
      case Err(e) => Err(e)
      case Ok(s1) =>
        if tx.hasZcSpendInputs then Ok(s1)
        else
          var nValueOut := s1.nValueOut + Sum(tx.vout);
          var fee := s1.nValueIn - nValueOut;
          var st := s1.st.(nFeesAll := s1.st.nFeesAll + fee);
          var st' := if tx.hasZcMintOutputs then st else st.(nFees := st.nFees + fee, nBytes := st.nBytes + tx.size);
          Ok(Scan(st', s1.nValueIn, nValueOut))
  }

  /** The transaction loop with the sums started afresh for each
      transaction, so that each fee is that transaction's own. */
  function ApplyTxs(fFeeOnly: bool, prevouts: map<OutPoint, int>, st: Stats, txs: seq<Tx>): Result<Stats, Error> {
    if |txs| == 0 then Ok(st)
    else
      match ApplyTxs(fFeeOnly, prevouts, st, txs[..|txs| - 1])
      case Err(e) => Err(e)
      case Ok(st1) =>
        match TxStep(fFeeOnly, prevouts, Scan(st1, 0, 0), txs[|txs| - 1])
        case Err(e) => Err(e)
        case Ok(s2) => Ok(s2.st)
  }

  /** The transaction loop as written: `nValueIn` and `nValueOut` are
      declared once per block, so each transaction's "fee" is the block's
      running `in - out` so far. */
  function ApplyTxsAsWritten(fFeeOnly: bool, prevouts: map<OutPoint, int>, s: Scan, txs: seq<Tx>): Result<Scan, Error> {
    if |txs| == 0 then Ok(s)
    else
      match ApplyTxsAsWritten(fFeeOnly, prevouts, s, txs[..|txs| - 1])
      case Err(e) => Err(e)
      case Ok(s1) => TxStep(fFeeOnly, prevouts, s1, txs[|txs| - 1])
  }

  /** The transaction counters: all transactions, and all but the coinbase
      (and the coinstake, in a proof-of-stake block). */
  function CountTxs(st: Stats, block: Block): Stats {
    var ntx := |block.vtx|;
    st.(nTxCountAll := st.nTxCountAll + ntx,
        nTxCount := if block.IsProofOfStake() then st.nTxCount + ntx - 2 else st.nTxCount + ntx - 1)
  }

  /** The body of the block loop, once the block has been read. */
  function BlockStep(fFeeOnly: bool, prevouts: map<OutPoint, int>, st: Stats, block: Block): Result<Stats, Error> {
    ApplyTxs(fFeeOnly, prevouts, CountTxs(st, block), block.vtx)
  }

  /** The block loop over the active-chain blocks `ids`, in order; a block
      missing from `blocks` cannot be read from disk. */
  function ApplyBlocks(fFeeOnly: bool, blocks: map<Id, Block>, prevouts: map<OutPoint, int>, st: Stats, ids: seq<Id>): Result<Stats, Error> {
    if |ids| == 0 then Ok(st)
    else
      match ApplyBlocks(fFeeOnly, blocks, prevouts, st, ids[..|ids| - 1])
      case Err(e) => Err(e)
      case Ok(st1) =>
        var id := ids[|ids| - 1];
        if id in blocks then BlockStep(fFeeOnly, prevouts, st1, blocks[id]) else Err(ReadBlockFailed)
  }

  /** `getblockindexstats` over the active chain `chain` (`chain[h]` is the
      block at height `h`): the validated interval, then every block of it
      from the start height up to the end height. */
  function BlockIndexStats(params: seq<int>, fFeeOnly: bool, denomList: seq<Denom>, chain: seq<Id>,
                           blocks: map<Id, Block>, prevouts: map<OutPoint, int>): Result<Stats, Error>
    requires |chain| > 0
  {
    match ValidateRange(params, |chain| - 1, 1)
    case Err(e) => Err(e)
    case Ok(range) =>
      if range.0 < 0 then Err(InvalidBlockHeight)
      else ApplyBlocks(fFeeOnly, blocks, prevouts, InitStats(denomList), chain[range.0..range.1 + 1])
  }

  /** `getfeeinfo(nBlocks)`: fee totals only, over the window below the tip. */
  function FeeInfo(nBlocks: int, denomList: seq<Denom>, chain: seq<Id>,
                   blocks: map<Id, Block>, prevouts: map<OutPoint, int>): Result<Stats, Error>
    requires |chain| > 0
  {
    match FeeInfoStart(nBlocks, |chain| - 1)
    case Err(e) => Err(e)
    case Ok(start) => BlockIndexStats([start, nBlocks], true, denomList, chain, blocks, prevouts)
  }

  // ---------------------------------------------------------------------
  // What each transaction contributes
  // ---------------------------------------------------------------------

  /** The value of a transaction's ordinary inputs. */
  function PlainValue(prevouts: map<OutPoint, int>, vin: seq<TxIn>): int {
    if |vin| == 0 then 0
    else
      var last := vin[|vin| - 1];
      PlainValue(prevouts, vin[..|vin| - 1]) + (if last.Plain? && last.prevout in prevouts then prevouts[last.prevout] else 0)
  }

  /** A transaction's fee: what its ordinary inputs spend minus what its
      outputs create. */
  function TxFee(prevouts: map<OutPoint, int>, tx: Tx): int {
    PlainValue(prevouts, tx.vin) - Sum(tx.vout)
  }

  /** The fees of the fee-counted transactions (`ttlfee_all`'s share). */
  function FeesAll(prevouts: map<OutPoint, int>, txs: seq<Tx>): int {
    if |txs| == 0 then 0
    else
      var tx := txs[|txs| - 1];
      FeesAll(prevouts, txs[..|txs| - 1]) + (if FeeCounted(tx) then TxFee(prevouts, tx) else 0)
  }

  /** The fees of the fee-counted transactions without mint outputs
      (`ttlfee`'s share). */
  function FeesNoMint(prevouts: map<OutPoint, int>, txs: seq<Tx>): int {
    if |txs| == 0 then 0
    else
      var tx := txs[|txs| - 1];
      FeesNoMint(prevouts, txs[..|txs| - 1]) + (if FeeCounted(tx) && !tx.hasZcMintOutputs then TxFee(prevouts, tx) else 0)
  }

  /** The sizes of the fee-counted transactions without mint outputs. */
  function BytesNoMint(txs: seq<Tx>): int {
    if |txs| == 0 then 0
    else
      var tx := txs[|txs| - 1];
      BytesNoMint(txs[..|txs| - 1]) + (if FeeCounted(tx) && !tx.hasZcMintOutputs then tx.size else 0)
  }

  /** The spend counter a zerocoin input increments: `mapPublicSpendCount`
      for a public spend, `mapSpendCount` for a private one. */
  function Counter(st: Stats, pub: bool): map<Denom, int> {
    if pub then st.publicSpendCount else st.spendCount
  }

  /** A counter read as `std::map` would after `m[d]++`: zero when absent. */
  function Get(m: map<Denom, int>, d: Denom): int {
    if d in m then m[d] else 0
  }

  /** `txin` is a public (`pub`) or private spend of denomination `d`. */
  predicate IsSpendOf(txin: TxIn, pub: bool, d: Denom) {
    if pub then txin == ZcPublicSpend(d) else txin == ZcSpend(d)
  }

  /** The number of spends of one kind and denomination among `vin`. */
  function SpendsIn(vin: seq<TxIn>, pub: bool, d: Denom): nat {
    if |vin| == 0 then 0
    else SpendsIn(vin[..|vin| - 1], pub, d) + (if IsSpendOf(vin[|vin| - 1], pub, d) then 1 else 0)
  }

  /** The same over the transactions whose inputs the loop reads. */
  function TxSpends(txs: seq<Tx>, pub: bool, d: Denom): nat {
    if |txs| == 0 then 0
    else
      var tx := txs[|txs| - 1];
      TxSpends(txs[..|txs| - 1], pub, d) + (if Skipped(tx) then 0 else SpendsIn(tx.vin, pub, d))
  }

  /** One input adds one to the counter of its kind at its denomination,
      inserting the denomination if it was missing. */
  lemma InputStepCounts(prevouts: map<OutPoint, int>, s: Scan, txin: TxIn)
    requires InputStep(false, prevouts, s, txin).Ok?
    ensures var s' := InputStep(false, prevouts, s, txin).value;
      && (forall pub, d :: Get(Counter(s'.st, pub), d) == Get(Counter(s.st, pub), d) + (if IsSpendOf(txin, pub, d) then 1 else 0))
      && (forall pub, d :: d in Counter(s'.st, pub) <==> d in Counter(s.st, pub) || IsSpendOf(txin, pub, d))
  {
  }

  /** Only the spend counters, and `nValueIn`, change while reading inputs;
      with `fFeeOnly` the counters do not change either, and without it each
      counter grows by the number of spends of its kind and denomination. */
  lemma {:induction false} InputsFrame(fFeeOnly: bool, prevouts: map<OutPoint, int>, s: Scan, vin: seq<TxIn>)
    requires ApplyInputs(fFeeOnly, prevouts, s, vin).Ok?
    ensures var s' := ApplyInputs(fFeeOnly, prevouts, s, vin).value;
      && s'.st.(spendCount := s.st.spendCount, publicSpendCount := s.st.publicSpendCount) == s.st
      && s'.nValueIn == s.nValueIn + PlainValue(prevouts, vin)
      && s'.nValueOut == s.nValueOut
      && (fFeeOnly ==> s'.st == s.st)
      && (!fFeeOnly ==> forall pub, d :: Get(Counter(s'.st, pub), d) == Get(Counter(s.st, pub), d) + SpendsIn(vin, pub, d))
      && (!fFeeOnly ==> forall pub, d :: d in Counter(s'.st, pub) <==> d in Counter(s.st, pub) || SpendsIn(vin, pub, d) > 0)
  {
    if |vin| > 0 {
      InputsFrame(fFeeOnly, prevouts, s, vin[..|vin| - 1]);
      if !fFeeOnly {
        var s1 := ApplyInputs(fFeeOnly, prevouts, s, vin[..|vin| - 1]).value;
        InputStepCounts(prevouts, s1, vin[|vin| - 1]);
      }
    }
  }

  /** Any ordinary input whose previous output cannot be found fails the
      transaction. */
  lemma {:induction false} MissingPrevoutFails(fFeeOnly: bool, prevouts: map<OutPoint, int>, s: Scan, vin: seq<TxIn>, j: nat)
    requires j < |vin| && vin[j].Plain? && vin[j].prevout !in prevouts
    ensures ApplyInputs(fFeeOnly, prevouts, s, vin).Err?
    decreases |vin|
  {
    if j < |vin| - 1 {
      MissingPrevoutFails(fFeeOnly, prevouts, s, vin[..|vin| - 1], j);
    }
  }

  /** With the sums started at zero, a fee-counted transaction adds its own
      fee to `nFeesAll`, and to `nFees` and its size to `nBytes` unless it
      has mint outputs; a transaction with zerocoin spends adds no fee; a
      skipped one changes nothing. */
  lemma TxStepEffect(fFeeOnly: bool, prevouts: map<OutPoint, int>, st: Stats, tx: Tx)
    requires TxStep(fFeeOnly, prevouts, Scan(st, 0, 0), tx).Ok?
    ensures var st' := TxStep(fFeeOnly, prevouts, Scan(st, 0, 0), tx).value.st;
      && st'.nTxCount == st.nTxCount && st'.nTxCountAll == st.nTxCountAll
      && (fFeeOnly || Skipped(tx) ==> st'.spendCount == st.spendCount && st'.publicSpendCount == st.publicSpendCount)
      && (!FeeCounted(tx) ==> st'.nFeesAll == st.nFeesAll && st'.nFees == st.nFees && st'.nBytes == st.nBytes)
      && (FeeCounted(tx) ==> st'.nFeesAll == st.nFeesAll + TxFee(prevouts, tx))
      && (FeeCounted(tx) && tx.hasZcMintOutputs ==> st'.nFees == st.nFees && st'.nBytes == st.nBytes)
      && (FeeCounted(tx) && !tx.hasZcMintOutputs ==> st'.nFees == st.nFees + TxFee(prevouts, tx) && st'.nBytes == st.nBytes + tx.size)
      && (!fFeeOnly ==> forall pub, d :: Get(Counter(st', pub), d) == Get(Counter(st, pub), d) + (if Skipped(tx) then 0 else SpendsIn(tx.vin, pub, d)))
      && (!fFeeOnly ==> forall pub, d :: d in Counter(st', pub) <==> d in Counter(st, pub) || (!Skipped(tx) && SpendsIn(tx.vin, pub, d) > 0))
  {
    if !Skipped(tx) {
      InputsFrame(fFeeOnly, prevouts, Scan(st, 0, 0), tx.vin);
    }
  }

  /** Over a block's transactions, the fee totals grow by the sum of the
      transactions' own fees, the byte total by their sizes, the spend
      counters by the spends of the transactions read, and the transaction
      counters stay as they are. */
  lemma {:induction false} TxsEffect(fFeeOnly: bool, prevouts: map<OutPoint, int>, st: Stats, txs: seq<Tx>)
    requires ApplyTxs(fFeeOnly, prevouts, st, txs).Ok?
    ensures var st' := ApplyTxs(fFeeOnly, prevouts, st, txs).value;
      && st'.nTxCount == st.nTxCount && st'.nTxCountAll == st.nTxCountAll
      && st'.nFeesAll == st.nFeesAll + FeesAll(prevouts, txs)
      && st'.nFees == st.nFees + FeesNoMint(prevouts, txs)
      && st'.nBytes == st.nBytes + BytesNoMint(txs)
      && (fFeeOnly ==> st'.spendCount == st.spendCount && st'.publicSpendCount == st.publicSpendCount)
      && (!fFeeOnly ==> forall pub, d :: Get(Counter(st', pub), d) == Get(Counter(st, pub), d) + TxSpends(txs, pub, d))
      && (!fFeeOnly ==> forall pub, d :: d in Counter(st', pub) <==> d in Counter(st, pub) || TxSpends(txs, pub, d) > 0)
  {
    if |txs| > 0 {
      var init := txs[..|txs| - 1];
      TxsEffect(fFeeOnly, prevouts, st, init);
      var st1 := ApplyTxs(fFeeOnly, prevouts, st, init).value;
      TxStepEffect(fFeeOnly, prevouts, st1, txs[|txs| - 1]);
    }
  }

  /** Transaction totals over a run of blocks. */
  function TxsAll(blocks: map<Id, Block>, ids: seq<Id>): int {
    if |ids| == 0 then 0
    else TxsAll(blocks, ids[..|ids| - 1]) + (if ids[|ids| - 1] in blocks then |blocks[ids[|ids| - 1]].vtx| else 0)
  }

  /** Transactions other than the block rewards over a run of blocks. */
  function TxsNoReward(blocks: map<Id, Block>, ids: seq<Id>): int {
    if |ids| == 0 then 0
    else
      var id := ids[|ids| - 1];
      TxsNoReward(blocks, ids[..|ids| - 1])
        + (if id in blocks then |blocks[id].vtx| - (if blocks[id].IsProofOfStake() then 2 else 1) else 0)
  }

  /** `FeesAll` summed over a run of blocks. */
  function RangeFeesAll(prevouts: map<OutPoint, int>, blocks: map<Id, Block>, ids: seq<Id>): int {
    if |ids| == 0 then 0
    else
      var id := ids[|ids| - 1];
      RangeFeesAll(prevouts, blocks, ids[..|ids| - 1]) + (if id in blocks then FeesAll(prevouts, blocks[id].vtx) else 0)
  }

  /** `FeesNoMint` summed over a run of blocks. */
  function RangeFeesNoMint(prevouts: map<OutPoint, int>, blocks: map<Id, Block>, ids: seq<Id>): int {
    if |ids| == 0 then 0
    else
      var id := ids[|ids| - 1];
      RangeFeesNoMint(prevouts, blocks, ids[..|ids| - 1]) + (if id in blocks then FeesNoMint(prevouts, blocks[id].vtx) else 0)
  }

  /** `BytesNoMint` summed over a run of blocks. */
  function RangeBytesNoMint(blocks: map<Id, Block>, ids: seq<Id>): int {
    if |ids| == 0 then 0
    else
      var id := ids[|ids| - 1];
      RangeBytesNoMint(blocks, ids[..|ids| - 1]) + (if id in blocks then BytesNoMint(blocks[id].vtx) else 0)
  }

  /** `TxSpends` summed over a run of blocks. */
  function RangeSpends(blocks: map<Id, Block>, ids: seq<Id>, pub: bool, d: Denom): nat {
    if |ids| == 0 then 0
    else
      var id := ids[|ids| - 1];
      RangeSpends(blocks, ids[..|ids| - 1], pub, d) + (if id in blocks then TxSpends(blocks[id].vtx, pub, d) else 0)
  }

  /** Over a run of blocks: `txcount_all` counts every transaction,
      `txcount` every one but the coinbase and, in proof-of-stake blocks,
      the coinstake; the fee and byte totals are the blocks' per-block
      totals summed; the spend counters count every spend read, unless
      `fFeeOnly` leaves them untouched. */
  lemma {:induction false} BlocksEffect(fFeeOnly: bool, blocks: map<Id, Block>, prevouts: map<OutPoint, int>, st: Stats, ids: seq<Id>)
    requires ApplyBlocks(fFeeOnly, blocks, prevouts, st, ids).Ok?
    ensures var st' := ApplyBlocks(fFeeOnly, blocks, prevouts, st, ids).value;
      && st'.nTxCountAll == st.nTxCountAll + TxsAll(blocks, ids)
      && st'.nTxCount == st.nTxCount + TxsNoReward(blocks, ids)
      && st'.nFeesAll == st.nFeesAll + RangeFeesAll(prevouts, blocks, ids)
      && st'.nFees == st.nFees + RangeFeesNoMint(prevouts, blocks, ids)
      && st'.nBytes == st.nBytes + RangeBytesNoMint(blocks, ids)
      && (fFeeOnly ==> st'.spendCount == st.spendCount && st'.publicSpendCount == st.publicSpendCount)
      && (!fFeeOnly ==> forall pub, d :: Get(Counter(st', pub), d) == Get(Counter(st, pub), d) + RangeSpends(blocks, ids, pub, d))
      && (!fFeeOnly ==> forall pub, d :: d in Counter(st', pub) <==> d in Counter(st, pub) || RangeSpends(blocks, ids, pub, d) > 0)
  {
    if |ids| > 0 {
      var init := ids[..|ids| - 1];
      BlocksEffect(fFeeOnly, blocks, prevouts, st, init);
      var st1 := ApplyBlocks(fFeeOnly, blocks, prevouts, st, init).value;
      TxsEffect(fFeeOnly, prevouts, CountTxs(st1, blocks[ids[|ids| - 1]]), blocks[ids[|ids| - 1]].vtx);
    }
  }

  /** What a successful `getblockindexstats` reports over its interval: the
      transaction counts, the fee and byte totals, and a spend count for every
      listed denomination and every denomination spent (all zero with
      `fFeeOnly`). */
  lemma IndexStatsTotals(params: seq<int>, fFeeOnly: bool, denomList: seq<Denom>, chain: seq<Id>,
                         blocks: map<Id, Block>, prevouts: map<OutPoint, int>)
    requires |chain| > 0 && BlockIndexStats(params, fFeeOnly, denomList, chain, blocks, prevouts).Ok?
    ensures ValidateRange(params, |chain| - 1, 1).Ok? && 0 <= ValidateRange(params, |chain| - 1, 1).value.0
    ensures var range := ValidateRange(params, |chain| - 1, 1).value;
      var ids := chain[range.0..range.1 + 1];
      var st := BlockIndexStats(params, fFeeOnly, denomList, chain, blocks, prevouts).value;
      && st.nTxCountAll == TxsAll(blocks, ids)
      && st.nTxCount == TxsNoReward(blocks, ids)
      && st.nFeesAll == RangeFeesAll(prevouts, blocks, ids)
      && st.nFees == RangeFeesNoMint(prevouts, blocks, ids)
      && st.nBytes == RangeBytesNoMint(blocks, ids)
      && (forall pub, d :: Get(Counter(st, pub), d) == (if fFeeOnly then 0 else RangeSpends(blocks, ids, pub, d)))
      && (forall pub, d :: d in Counter(st, pub) <==> d in denomList || (!fFeeOnly && RangeSpends(blocks, ids, pub, d) > 0))
  {
    var range := ValidateRange(params, |chain| - 1, 1).value;
    var ids := chain[range.0..range.1 + 1];
    var st0 := InitStats(denomList);
    BlocksEffect(fFeeOnly, blocks, prevouts, st0, ids);
    assert forall pub, d :: Get(Counter(st0, pub), d) == 0;
  }

  /** The counter entries the reply lists: one per denomination of
      `denomList`, in its order, each read as `map[denom]` reads it. */
  function Listed(m: map<Denom, int>, denomList: seq<Denom>): (es: seq<(Denom, int)>)
    ensures |es| == |denomList|
    ensures forall i :: 0 <= i < |denomList| ==> es[i] == (denomList[i], Get(m, denomList[i]))
  {
    seq(|denomList|, i requires 0 <= i < |denomList| => (denomList[i], Get(m, denomList[i])))
  }

  /** The JSON object `getblockindexstats` builds from its accumulators:
      the spend objects only without `fFeeOnly`, and only for the listed
      denominations. */
  function ReportOf(st: Stats, fFeeOnly: bool, denomList: seq<Denom>): Report {
    Report(st.nTxCount, st.nTxCountAll,
           if fFeeOnly then None else Some(Listed(st.spendCount, denomList)),
           if fFeeOnly then None else Some(Listed(st.publicSpendCount, denomList)),
           st.nBytes, st.nFees, st.nFeesAll)
  }

  /** What a successful call reports: the counts and totals over the
      validated interval; without `fFeeOnly`, for each listed denomination in
      order, the number of its private and of its public spends in the range
      (a spent denomination outside the list is counted but not reported);
      with `fFeeOnly`, no spend objects at all. */
  lemma IndexStatsReport(params: seq<int>, fFeeOnly: bool, denomList: seq<Denom>, chain: seq<Id>,
                         blocks: map<Id, Block>, prevouts: map<OutPoint, int>)
    requires |chain| > 0 && BlockIndexStats(params, fFeeOnly, denomList, chain, blocks, prevouts).Ok?
    ensures ValidateRange(params, |chain| - 1, 1).Ok? && 0 <= ValidateRange(params, |chain| - 1, 1).value.0
    ensures var range := ValidateRange(params, |chain| - 1, 1).value;
      var ids := chain[range.0..range.1 + 1];
      var rep := ReportOf(BlockIndexStats(params, fFeeOnly, denomList, chain, blocks, prevouts).value, fFeeOnly, denomList);
      && rep.txcount == TxsNoReward(blocks, ids) && rep.txcountAll == TxsAll(blocks, ids)
      && rep.txbytes == RangeBytesNoMint(blocks, ids)
      && rep.ttlfee == RangeFeesNoMint(prevouts, blocks, ids) && rep.ttlfeeAll == RangeFeesAll(prevouts, blocks, ids)
      && (rep.spendcount.None? <==> fFeeOnly) && (rep.publicspendcount.None? <==> fFeeOnly)
      && (!fFeeOnly ==> |rep.spendcount.value| == |denomList| && |rep.publicspendcount.value| == |denomList|)
      && (!fFeeOnly ==> forall i :: 0 <= i < |denomList| ==>
            rep.spendcount.value[i] == (denomList[i], RangeSpends(blocks, ids, false, denomList[i]))
            && rep.publicspendcount.value[i] == (denomList[i], RangeSpends(blocks, ids, true, denomList[i])))
  {
    IndexStatsTotals(params, fFeeOnly, denomList, chain, blocks, prevouts);
  }

  /** A block of the range that cannot be read fails the whole call. */
  lemma {:induction false} MissingBlockFails(fFeeOnly: bool, blocks: map<Id, Block>, prevouts: map<OutPoint, int>, st: Stats, ids: seq<Id>, j: nat)
    requires j < |ids| && ids[j] !in blocks
    ensures ApplyBlocks(fFeeOnly, blocks, prevouts, st, ids).Err?
    decreases |ids|
  {
    if j < |ids| - 1 {
      MissingBlockFails(fFeeOnly, blocks, prevouts, st, ids[..|ids| - 1], j);
    }
  }

  /** The `k`-th input of the `j`-th transaction is an ordinary input whose
      previous output cannot be found, in a transaction the loop reads. */
  predicate MissesPrevout(prevouts: map<OutPoint, int>, txs: seq<Tx>, j: nat, k: nat) {
    j < |txs| && !Skipped(txs[j]) && k < |txs[j].vin| && txs[j].vin[k].Plain? && txs[j].vin[k].prevout !in prevouts
  }

  /** A read transaction with an unknown previous output fails the
      transaction loop. */
  lemma {:induction false} TxsMissingPrevoutFails(fFeeOnly: bool, prevouts: map<OutPoint, int>, st: Stats, txs: seq<Tx>, j: nat, k: nat)
    requires MissesPrevout(prevouts, txs, j, k)
    ensures ApplyTxs(fFeeOnly, prevouts, st, txs).Err?
    decreases |txs|
  {
    var init := txs[..|txs| - 1];
    if j < |txs| - 1 {
      assert init[j] == txs[j];
      TxsMissingPrevoutFails(fFeeOnly, prevouts, st, init, j, k);
    } else if ApplyTxs(fFeeOnly, prevouts, st, init).Ok? {
      var st1 := ApplyTxs(fFeeOnly, prevouts, st, init).value;
      MissingPrevoutFails(fFeeOnly, prevouts, Scan(st1, 0, 0), txs[j].vin, k);
    }
  }

  /** A read transaction with an unknown previous output, in a block of the
      run that can be read, fails the block loop. */
  lemma {:induction false} BlocksMissingPrevoutFails(fFeeOnly: bool, blocks: map<Id, Block>, prevouts: map<OutPoint, int>, st: Stats, ids: seq<Id>, b: nat, j: nat, k: nat)
    requires b < |ids| && ids[b] in blocks && MissesPrevout(prevouts, blocks[ids[b]].vtx, j, k)
    ensures ApplyBlocks(fFeeOnly, blocks, prevouts, st, ids).Err?
    decreases |ids|
  {
    var init := ids[..|ids| - 1];
    if b < |ids| - 1 {
      assert init[b] == ids[b];
      BlocksMissingPrevoutFails(fFeeOnly, blocks, prevouts, st, init, b, j, k);
    } else if ApplyBlocks(fFeeOnly, blocks, prevouts, st, init).Ok? {
      var st1 := ApplyBlocks(fFeeOnly, blocks, prevouts, st, init).value;
      TxsMissingPrevoutFails(fFeeOnly, prevouts, CountTxs(st1, blocks[ids[b]]), blocks[ids[b]].vtx, j, k);
    }
  }

  /** `getblockindexstats` fails when a block of the requested range holds a
      transaction the loop reads (neither the coinbase nor a coinstake without
      zerocoin spends) with an ordinary input whose previous output cannot be
      found. A skipped transaction's inputs are never looked up. */
  lemma IndexStatsMissingPrevoutFails(params: seq<int>, fFeeOnly: bool, denomList: seq<Denom>, chain: seq<Id>,
                                      blocks: map<Id, Block>, prevouts: map<OutPoint, int>, h: nat, j: nat, k: nat)
    requires |chain| > 0 && ValidateRange(params, |chain| - 1, 1).Ok?
    requires ValidateRange(params, |chain| - 1, 1).value.0 <= h <= ValidateRange(params, |chain| - 1, 1).value.1
    requires h < |chain| && chain[h] in blocks && MissesPrevout(prevouts, blocks[chain[h]].vtx, j, k)
    ensures BlockIndexStats(params, fFeeOnly, denomList, chain, blocks, prevouts).Err?
  {
    var range := ValidateRange(params, |chain| - 1, 1).value;
    if range.0 >= 0 {
      var ids := chain[range.0..range.1 + 1];
      assert ids[h - range.0] == chain[h];
      BlocksMissingPrevoutFails(fFeeOnly, blocks, prevouts, InitStats(denomList), ids, h - range.0, j, k);
    }
  }

  /** `getfeeinfo` never changes the spend counters: they stay at zero. */
  lemma FeeInfoKeepsSpendCounts(nBlocks: int, denomList: seq<Denom>, chain: seq<Id>, blocks: map<Id, Block>, prevouts: map<OutPoint, int>)
    requires |chain| > 0 && FeeInfo(nBlocks, denomList, chain, blocks, prevouts).Ok?
    ensures FeeInfo(nBlocks, denomList, chain, blocks, prevouts).value.spendCount == InitStats(denomList).spendCount
    ensures FeeInfo(nBlocks, denomList, chain, blocks, prevouts).value.publicSpendCount == InitStats(denomList).publicSpendCount
  {
    var start := FeeInfoStart(nBlocks, |chain| - 1).value;
    var range := ValidateRange([start, nBlocks], |chain| - 1, 1).value;
    BlocksEffect(true, blocks, prevouts, InitStats(denomList), chain[range.0..range.1 + 1]);
  }

  // ---------------------------------------------------------------------
  // The running-sum fee of the source, against the per-transaction fee
  // ---------------------------------------------------------------------

  /** The value of the ordinary inputs of the transactions whose inputs the
      loop reads. */
  function ValueIn(prevouts: map<OutPoint, int>, txs: seq<Tx>): int {
    if |txs| == 0 then 0
    else
      var tx := txs[|txs| - 1];
      ValueIn(prevouts, txs[..|txs| - 1]) + (if Skipped(tx) then 0 else PlainValue(prevouts, tx.vin))
  }

  /** The output value of the fee-counted transactions. */
  function ValueOut(txs: seq<Tx>): int {
    if |txs| == 0 then 0
    else
      var tx := txs[|txs| - 1];
      ValueOut(txs[..|txs| - 1]) + (if FeeCounted(tx) then Sum(tx.vout) else 0)
  }

  /** The ordinary inputs of transactions with zerocoin spends: read into
      `nValueIn`, but never matched by outputs in `nValueOut`. */
  function ZcPlainIn(prevouts: map<OutPoint, int>, txs: seq<Tx>): int {
    if |txs| == 0 then 0
    else
      var tx := txs[|txs| - 1];
      ZcPlainIn(prevouts, txs[..|txs| - 1]) + (if !Skipped(tx) && tx.hasZcSpendInputs then PlainValue(prevouts, tx.vin) else 0)
  }

  /** The block's running `nValueIn - nValueOut` after some transactions is
      their fees plus the ordinary inputs of their zerocoin-spend
      transactions. */
  lemma {:induction false} RunningDifference(prevouts: map<OutPoint, int>, txs: seq<Tx>)
    ensures ValueIn(prevouts, txs) - ValueOut(txs) == FeesAll(prevouts, txs) + ZcPlainIn(prevouts, txs)
    decreases |txs|
  {
    if |txs| > 0 {
      RunningDifference(prevouts, txs[..|txs| - 1]);
    }
  }

  /** What the loop as written adds to `ttlfee_all`: each fee-counted
      transaction is charged the running difference up to and including
      itself. */
  function RunningFeesAll(prevouts: map<OutPoint, int>, txs: seq<Tx>): int {
    if |txs| == 0 then 0
    else
      RunningFeesAll(prevouts, txs[..|txs| - 1])
        + (if FeeCounted(txs[|txs| - 1]) then FeesAll(prevouts, txs) + ZcPlainIn(prevouts, txs) else 0)
  }

  /** The same charge, for `ttlfee`: fee-counted transactions without mints. */
  function RunningFeesNoMint(prevouts: map<OutPoint, int>, txs: seq<Tx>): int {
    if |txs| == 0 then 0
    else
      var tx := txs[|txs| - 1];
      RunningFeesNoMint(prevouts, txs[..|txs| - 1])
        + (if FeeCounted(tx) && !tx.hasZcMintOutputs then FeesAll(prevouts, txs) + ZcPlainIn(prevouts, txs) else 0)
  }

  /** One transaction on running sums: it adds its ordinary inputs and, when
      fee-counted, its outputs to the sums, and is charged the new
      difference. */
  lemma TxStepRunning(fFeeOnly: bool, prevouts: map<OutPoint, int>, s: Scan, tx: Tx)
    requires TxStep(fFeeOnly, prevouts, s, tx).Ok?
    ensures var s' := TxStep(fFeeOnly, prevouts, s, tx).value;
      && s'.nValueIn == s.nValueIn + (if Skipped(tx) then 0 else PlainValue(prevouts, tx.vin))
      && s'.nValueOut == s.nValueOut + (if FeeCounted(tx) then Sum(tx.vout) else 0)
      && s'.st.nFeesAll == s.st.nFeesAll + (if FeeCounted(tx) then s'.nValueIn - s'.nValueOut else 0)
      && s'.st.nFees == s.st.nFees + (if FeeCounted(tx) && !tx.hasZcMintOutputs then s'.nValueIn - s'.nValueOut else 0)
      && s'.st.nBytes == s.st.nBytes + (if FeeCounted(tx) && !tx.hasZcMintOutputs then tx.size else 0)
      && s'.st.nTxCount == s.st.nTxCount && s'.st.nTxCountAll == s.st.nTxCountAll
      && (fFeeOnly ==> s'.st.spendCount == s.st.spendCount && s'.st.publicSpendCount == s.st.publicSpendCount)
      && (!fFeeOnly ==> forall pub, d :: Get(Counter(s'.st, pub), d) == Get(Counter(s.st, pub), d) + (if Skipped(tx) then 0 else SpendsIn(tx.vin, pub, d)))
      && (!fFeeOnly ==> forall pub, d :: d in Counter(s'.st, pub) <==> d in Counter(s.st, pub) || (!Skipped(tx) && SpendsIn(tx.vin, pub, d) > 0))
  {
    if !Skipped(tx) {
      InputsFrame(fFeeOnly, prevouts, s, tx.vin);
    }
  }

  /** The transaction loop as written, over a whole block from zero sums:
      `nValueIn` and `nValueOut` end as the block's sums, and every
      fee-counted transaction adds the running difference instead of its own
      fee; the byte total, the transaction counters and the spend counters
      are as in the corrected loop. */
  lemma {:induction false} AsWrittenEffect(fFeeOnly: bool, prevouts: map<OutPoint, int>, st: Stats, txs: seq<Tx>)
    requires ApplyTxsAsWritten(fFeeOnly, prevouts, Scan(st, 0, 0), txs).Ok?
    ensures var s' := ApplyTxsAsWritten(fFeeOnly, prevouts, Scan(st, 0, 0), txs).value;
      && s'.nValueIn == ValueIn(prevouts, txs)
      && s'.nValueOut == ValueOut(txs)
      && s'.st.nFeesAll == st.nFeesAll + RunningFeesAll(prevouts, txs)
      && s'.st.nFees == st.nFees + RunningFeesNoMint(prevouts, txs)
      && s'.st.nBytes == st.nBytes + BytesNoMint(txs)
      && s'.st.nTxCount == st.nTxCount && s'.st.nTxCountAll == st.nTxCountAll
      && (fFeeOnly ==> s'.st.spendCount == st.spendCount && s'.st.publicSpendCount == st.publicSpendCount)
      && (!fFeeOnly ==> forall pub, d :: Get(Counter(s'.st, pub), d) == Get(Counter(st, pub), d) + TxSpends(txs, pub, d))
      && (!fFeeOnly ==> forall pub, d :: d in Counter(s'.st, pub) <==> d in Counter(st, pub) || TxSpends(txs, pub, d) > 0)
    decreases |txs|
  {
    if |txs| > 0 {
      var init, tx := txs[..|txs| - 1], txs[|txs| - 1];
      AsWrittenEffect(fFeeOnly, prevouts, st, init);
      var s1 := ApplyTxsAsWritten(fFeeOnly, prevouts, Scan(st, 0, 0), init).value;
      TxStepRunning(fFeeOnly, prevouts, s1, tx);
      RunningDifference(prevouts, txs);
    }
  }

  /** The input loop fails or not regardless of the sums it starts from. */
  lemma {:induction false} InputsOkAnyStart(fFeeOnly: bool, prevouts: map<OutPoint, int>, s1: Scan, s2: Scan, vin: seq<TxIn>)
    ensures ApplyInputs(fFeeOnly, prevouts, s1, vin).Ok? <==> ApplyInputs(fFeeOnly, prevouts, s2, vin).Ok?
    decreases |vin|
  {
    if |vin| > 0 {
      InputsOkAnyStart(fFeeOnly, prevouts, s1, s2, vin[..|vin| - 1]);
    }
  }

  /** The loop as written fails exactly when the corrected one does. */
  lemma {:induction false} AsWrittenFailsAlike(fFeeOnly: bool, prevouts: map<OutPoint, int>, st: Stats, s: Scan, txs: seq<Tx>)
    ensures ApplyTxsAsWritten(fFeeOnly, prevouts, s, txs).Ok? <==> ApplyTxs(fFeeOnly, prevouts, st, txs).Ok?
    decreases |txs|
  {
    if |txs| > 0 {
      var init, tx := txs[..|txs| - 1], txs[|txs| - 1];
      AsWrittenFailsAlike(fFeeOnly, prevouts, st, s, init);
      var a := ApplyTxsAsWritten(fFeeOnly, prevouts, s, init);
      var b := ApplyTxs(fFeeOnly, prevouts, st, init);
      if a.Ok? && b.Ok? {
        InputsOkAnyStart(fFeeOnly, prevouts, a.value, Scan(b.value, 0, 0), tx.vin);
      }
    }
  }

  /** The body of the block loop as written: the sums start at zero once per
      block, not once per transaction. */
  function BlockStepAsWritten(fFeeOnly: bool, prevouts: map<OutPoint, int>, st: Stats, block: Block): Result<Stats, Error> {
    match ApplyTxsAsWritten(fFeeOnly, prevouts, Scan(CountTxs(st, block), 0, 0), block.vtx)
    case Err(e) => Err(e)
    case Ok(s) => Ok(s.st)
  }

  /** A block as written succeeds exactly when the corrected step does, and
      then differs from it only in the fee totals, which carry the running
      charges. */
  lemma AsWrittenBlockEffect(fFeeOnly: bool, prevouts: map<OutPoint, int>, st: Stats, block: Block)
    ensures BlockStepAsWritten(fFeeOnly, prevouts, st, block).Ok? <==> BlockStep(fFeeOnly, prevouts, st, block).Ok?
    ensures BlockStepAsWritten(fFeeOnly, prevouts, st, block).Ok? ==>
      var w := BlockStepAsWritten(fFeeOnly, prevouts, st, block).value;
      var c := BlockStep(fFeeOnly, prevouts, st, block).value;
      && w.nFeesAll == st.nFeesAll + RunningFeesAll(prevouts, block.vtx)
      && w.nFees == st.nFees + RunningFeesNoMint(prevouts, block.vtx)
      && c.nFeesAll == st.nFeesAll + FeesAll(prevouts, block.vtx)
      && c.nFees == st.nFees + FeesNoMint(prevouts, block.vtx)
      && w == c.(nFeesAll := w.nFeesAll, nFees := w.nFees)
  {
    var st1 := CountTxs(st, block);
    AsWrittenFailsAlike(fFeeOnly, prevouts, st1, Scan(st1, 0, 0), block.vtx);
    if BlockStep(fFeeOnly, prevouts, st, block).Ok? {
      AsWrittenEffect(fFeeOnly, prevouts, st1, block.vtx);
      TxsEffect(fFeeOnly, prevouts, st1, block.vtx);
      var w := BlockStepAsWritten(fFeeOnly, prevouts, st, block).value;
      var c := BlockStep(fFeeOnly, prevouts, st, block).value;
      if !fFeeOnly {
        forall pub: bool
          ensures (forall d :: d in Counter(w, pub) <==> d in Counter(c, pub))
          ensures (forall d :: Get(Counter(w, pub), d) == Get(Counter(c, pub), d))
        {
          forall d ensures d in Counter(w, pub) <==> d in Counter(c, pub) {
            assert d in Counter(w, pub) <==> d in Counter(st1, pub) || TxSpends(block.vtx, pub, d) > 0;
          }
          forall d ensures Get(Counter(w, pub), d) == Get(Counter(c, pub), d) {
            assert Get(Counter(w, pub), d) == Get(Counter(st1, pub), d) + TxSpends(block.vtx, pub, d);
          }
        }
        SameCounts(Counter(w, false), Counter(c, false));
        SameCounts(Counter(w, true), Counter(c, true));
      }
    }
  }

  /** Two counters with the same keys and the same readings are equal. */
  lemma SameCounts(m1: map<Denom, int>, m2: map<Denom, int>)
    requires forall d :: d in m1 <==> d in m2
    requires forall d :: Get(m1, d) == Get(m2, d)
    ensures m1 == m2
  {
    forall d | d in m1 ensures m1[d] == m2[d] {
      assert Get(m1, d) == Get(m2, d);
    }
  }

  const Coinbase := Tx(true, false, false, false, [], [10], 100)
  const Spend1 := Tx(false, false, false, false, [Plain((1, 0))], [4], 200)
  const Spend2 := Tx(false, false, false, false, [Plain((2, 0))], [1], 300)
  const TwoSpendPrevouts: map<OutPoint, int> := map[(1, 0) := 5, (2, 0) := 3]

  /** A block with a coinbase and two spends paying fees 1 and 2: the block
      loop as written charges the second spend the block's running
      `8 - 5 = 3`, so `ttlfee_all` comes to 4; the per-transaction loop gives
      the fees' sum 3. */
  lemma RunningSumDoubleCountsFees()
    ensures TxFee(TwoSpendPrevouts, Spend1) == 1 && TxFee(TwoSpendPrevouts, Spend2) == 2
    ensures ApplyTxsAsWritten(true, TwoSpendPrevouts, Scan(InitStats([]), 0, 0), [Coinbase, Spend1, Spend2]).Ok?
    ensures ApplyTxsAsWritten(true, TwoSpendPrevouts, Scan(InitStats([]), 0, 0), [Coinbase, Spend1, Spend2]).value.st.nFeesAll == 4
    ensures ApplyTxs(true, TwoSpendPrevouts, InitStats([]), [Coinbase, Spend1, Spend2]) == Ok(InitStats([]).(nFeesAll := 3, nFees := 3, nBytes := 500))
  {
    var txs := [Coinbase, Spend1, Spend2];
    var p := TwoSpendPrevouts;
    assert txs[..2] == [Coinbase, Spend1] && [Coinbase, Spend1][..1] == [Coinbase] && [Coinbase][..0] == [];
    assert Spend1.vout[..0] == [] && Spend1.vin[..0] == [] && Spend2.vout[..0] == [] && Spend2.vin[..0] == [];
    assert Sum(Spend1.vout) == 4 && Sum(Spend2.vout) == 1;
    assert PlainValue(p, Spend1.vin) == 5 && PlainValue(p, Spend2.vin) == 3;
    var z := InitStats([]);
    var s0 := Scan(z, 0, 0);
    // as written
    assert ApplyTxsAsWritten(true, p, s0, [Coinbase]) == Ok(s0);
    assert ApplyInputs(true, p, s0, Spend1.vin) == Ok(Scan(z, 5, 0));
    var s1 := Scan(z.(nFeesAll := 1, nFees := 1, nBytes := 200), 5, 4);
    assert ApplyTxsAsWritten(true, p, s0, [Coinbase, Spend1]) == Ok(s1);
    assert ApplyInputs(true, p, s1, Spend2.vin) == Ok(s1.(nValueIn := 8));
    assert ApplyTxsAsWritten(true, p, s0, txs) == Ok(Scan(z.(nFeesAll := 4, nFees := 4, nBytes := 500), 8, 5));
    // per transaction
    assert ApplyTxs(true, p, z, [Coinbase]) == Ok(z);
    assert ApplyTxs(true, p, z, [Coinbase, Spend1]) == Ok(s1.st);
    assert ApplyInputs(true, p, Scan(s1.st, 0, 0), Spend2.vin) == Ok(Scan(s1.st, 3, 0));
  }

  /** The example of a proof-of-stake block holding just its coinbase and
      coinstake: two transactions, none counted, no fee. */
  lemma RewardOnlyBlock(st: Stats)
    ensures var stake := Tx(false, true, false, false, [Plain((7, 1))], [12, 3], 180);
      BlockStep(false, map[], st, Block([Coinbase, stake])) ==
        Ok(st.(nTxCountAll := st.nTxCountAll + 2, nTxCount := st.nTxCount))
  {
    var stake := Tx(false, true, false, false, [Plain((7, 1))], [12, 3], 180);
    var block := Block([Coinbase, stake]);
    var st1 := CountTxs(st, block);
    assert st1 == st.(nTxCountAll := st.nTxCountAll + 2, nTxCount := st.nTxCount);
    assert [Coinbase, stake][..1] == [Coinbase] && [Coinbase][..0] == [];
    assert ApplyTxs(false, map[], st1, [Coinbase]) == Ok(st1);
  }

  /** The example of an ordinary transaction spending 5 and 3 into one output
      of 7: its fee is 1, counted in both fee totals. */
  lemma FiveAndThreeIntoSeven(st: Stats)
    ensures var tx := Tx(false, false, false, false, [Plain((1, 0)), Plain((2, 0))], [7], 250);
      && TxFee(TwoSpendPrevouts, tx) == 1
      && ApplyTxs(false, TwoSpendPrevouts, st, [tx]) == Ok(st.(nFeesAll := st.nFeesAll + 1, nFees := st.nFees + 1, nBytes := st.nBytes + 250))
  {
    var tx := Tx(false, false, false, false, [Plain((1, 0)), Plain((2, 0))], [7], 250);
    var p := TwoSpendPrevouts;
    assert tx.vin[..1] == [Plain((1, 0))] && tx.vin[..1][..0] == [];
    assert tx.vout[..0] == [] && Sum(tx.vout) == 7;
    assert PlainValue(p, tx.vin[..1]) == 5 && PlainValue(p, tx.vin) == 8;
    assert ApplyInputs(false, p, Scan(st, 0, 0), tx.vin[..1]) == Ok(Scan(st, 5, 0));
    assert ApplyInputs(false, p, Scan(st, 0, 0), tx.vin) == Ok(Scan(st, 8, 0));
    assert [tx][..0] == [];
  }

  // ---------------------------------------------------------------------
  // getblockindexstats and getfeeinfo
  // ---------------------------------------------------------------------

  lemma {:induction false} InputsErrSticky(fFeeOnly: bool, prevouts: map<OutPoint, int>, s: Scan, vin: seq<TxIn>, j: nat)
    requires j <= |vin| && ApplyInputs(fFeeOnly, prevouts, s, vin[..j]).Err?
    ensures ApplyInputs(fFeeOnly, prevouts, s, vin) == ApplyInputs(fFeeOnly, prevouts, s, vin[..j])
    decreases |vin|
  {
    if j < |vin| {
      assert vin[..|vin| - 1][..j] == vin[..j];
      InputsErrSticky(fFeeOnly, prevouts, s, vin[..|vin| - 1], j);
    } else {
      assert vin[..j] == vin;
    }
  }

  lemma {:induction false} TxsErrSticky(fFeeOnly: bool, prevouts: map<OutPoint, int>, st: Stats, txs: seq<Tx>, j: nat)
    requires j <= |txs| && ApplyTxs(fFeeOnly, prevouts, st, txs[..j]).Err?
    ensures ApplyTxs(fFeeOnly, prevouts, st, txs) == ApplyTxs(fFeeOnly, prevouts, st, txs[..j])
    decreases |txs|
  {
    if j < |txs| {
      assert txs[..|txs| - 1][..j] == txs[..j];
      TxsErrSticky(fFeeOnly, prevouts, st, txs[..|txs| - 1], j);
    } else {
      assert txs[..j] == txs;
    }
  }

  lemma {:induction false} BlocksErrSticky(fFeeOnly: bool, blocks: map<Id, Block>, prevouts: map<OutPoint, int>, st: Stats, ids: seq<Id>, j: nat)
    requires j <= |ids| && ApplyBlocks(fFeeOnly, blocks, prevouts, st, ids[..j]).Err?
    ensures ApplyBlocks(fFeeOnly, blocks, prevouts, st, ids) == ApplyBlocks(fFeeOnly, blocks, prevouts, st, ids[..j])
    decreases |ids|
  {
    if j < |ids| {
      assert ids[..|ids| - 1][..j] == ids[..j];
      BlocksErrSticky(fFeeOnly, blocks, prevouts, st, ids[..|ids| - 1], j);
    } else {
      assert ids[..j] == ids;
    }
  }

  /** One more input of the input loop. */
  lemma InputsStep(fFeeOnly: bool, prevouts: map<OutPoint, int>, s0: Scan, vin: seq<TxIn>, k: nat, s: Scan)
    requires k < |vin| && ApplyInputs(fFeeOnly, prevouts, s0, vin[..k]) == Ok(s)
    ensures ApplyInputs(fFeeOnly, prevouts, s0, vin[..k + 1]) == InputStep(fFeeOnly, prevouts, s, vin[k])
  {
    assert vin[..k + 1][..k] == vin[..k];
  }

  /** One more transaction of the transaction loop. */
  lemma TxsStep(fFeeOnly: bool, prevouts: map<OutPoint, int>, st0: Stats, txs: seq<Tx>, k: nat, st: Stats)
    requires k < |txs| && ApplyTxs(fFeeOnly, prevouts, st0, txs[..k]) == Ok(st)
    ensures ApplyTxs(fFeeOnly, prevouts, st0, txs[..k + 1]) ==
      match TxStep(fFeeOnly, prevouts, Scan(st, 0, 0), txs[k])
      case Err(e) => Err(e)
      case Ok(s2) => Ok(s2.st)
  {
    assert txs[..k + 1][..k] == txs[..k];
  }

  /** One more block of the loop: it is read and applied, or it is missing. */
  lemma BlocksStep(fFeeOnly: bool, blocks: map<Id, Block>, prevouts: map<OutPoint, int>, st0: Stats, ids: seq<Id>, k: nat, st: Stats)
    requires k < |ids| && ApplyBlocks(fFeeOnly, blocks, prevouts, st0, ids[..k]) == Ok(st)
    ensures ApplyBlocks(fFeeOnly, blocks, prevouts, st0, ids[..k + 1]) ==
      if ids[k] in blocks then BlockStep(fFeeOnly, prevouts, st, blocks[ids[k]]) else Err(ReadBlockFailed)
  {
    assert ids[..k + 1][..k] == ids[..k];
  }

  /** One more block of the block loop, with its outcome `rb`: a failure
      ends the whole loop, a success extends the prefix. */
  lemma BlocksNext(fFeeOnly: bool, blocks: map<Id, Block>, prevouts: map<OutPoint, int>, st0: Stats, ids: seq<Id>, k: nat, st: Stats,
                   rb: Result<Stats, Error>)
    requires k < |ids| && ApplyBlocks(fFeeOnly, blocks, prevouts, st0, ids[..k]) == Ok(st)
    requires rb == if ids[k] in blocks then BlockStep(fFeeOnly, prevouts, st, blocks[ids[k]]) else Err(ReadBlockFailed)
    ensures rb.Err? ==> ApplyBlocks(fFeeOnly, blocks, prevouts, st0, ids) == rb
    ensures rb.Ok? ==> ApplyBlocks(fFeeOnly, blocks, prevouts, st0, ids[..k + 1]) == rb
  {
    BlocksStep(fFeeOnly, blocks, prevouts, st0, ids, k, st);
    if rb.Err? {
      BlocksErrSticky(fFeeOnly, blocks, prevouts, st0, ids, k + 1);
    }
  }

  /** `nValueOut += tx.vout[j].nValue` over the outputs. */
  method AddOutputs(nValueOut: int, vout: seq<int>) returns (total: int)
    ensures total == nValueOut + Sum(vout)
  {
    total := nValueOut;
    var j := 0;
    while j < |vout|
      invariant 0 <= j <= |vout|
      invariant total == nValueOut + Sum(vout[..j])
    {
      assert vout[..j + 1][..j] == vout[..j];
      total := total + vout[j];
      j := j + 1;
    }
    assert vout[..|vout|] == vout;
  }

  /** The input loop: count zerocoin spends, add up ordinary inputs. */
  method ReadInputs(fFeeOnly: bool, prevouts: map<OutPoint, int>, s0: Scan, vin: seq<TxIn>) returns (r: Result<Scan, Error>)
    ensures r == ApplyInputs(fFeeOnly, prevouts, s0, vin)
  {
    var s := s0;
    var j := 0;
    while j < |vin|
      invariant 0 <= j <= |vin|
      invariant ApplyInputs(fFeeOnly, prevouts, s0, vin[..j]) == Ok(s)
    {
      InputsStep(fFeeOnly, prevouts, s0, vin, j, s);
      match vin[j] {
        case ZcSpend(d) =>
          if !fFeeOnly {
            s := s.(st := s.st.(spendCount := Bump(s.st.spendCount, d)));
          }
        case ZcPublicSpend(d) =>
          if !fFeeOnly {
            s := s.(st := s.st.(publicSpendCount := Bump(s.st.publicSpendCount, d)));
          }
        case Plain(p) =>
          if p !in prevouts {
            InputsErrSticky(fFeeOnly, prevouts, s0, vin, j + 1);
            return Err(ReadTxFailed);
          }
          s := s.(nValueIn := s.nValueIn + prevouts[p]);
      }
      j := j + 1;
    }
    assert vin[..|vin|] == vin;
    return Ok(s);
  }

  /** One transaction of the block, with its own `nValueIn`/`nValueOut`. */
  method ReadTx(fFeeOnly: bool, prevouts: map<OutPoint, int>, st: Stats, tx: Tx) returns (r: Result<Stats, Error>)
    ensures TxStep(fFeeOnly, prevouts, Scan(st, 0, 0), tx).Ok? <==> r.Ok?
    ensures r.Ok? ==> r.value == TxStep(fFeeOnly, prevouts, Scan(st, 0, 0), tx).value.st
    ensures r.Err? ==> r.error == TxStep(fFeeOnly, prevouts, Scan(st, 0, 0), tx).error
  {
    if tx.isCoinBase || (tx.isCoinStake && !tx.hasZcSpendInputs) {
      return Ok(st);
    }
    var nValueIn := 0;
    var nValueOut := 0;
    var ri := ReadInputs(fFeeOnly, prevouts, Scan(st, nValueIn, nValueOut), tx.vin);
    if ri.Err? {
      return Err(ri.error);
    }
    var s := ri.value;
    // zc spends have no fee
    if tx.hasZcSpendInputs {
      return Ok(s.st);
    }
    nValueIn := s.nValueIn;
    nValueOut := AddOutputs(s.nValueOut, tx.vout);
    var res := s.st.(nFeesAll := s.st.nFeesAll + (nValueIn - nValueOut));
    if !tx.hasZcMintOutputs {
      res := res.(nFees := res.nFees + (nValueIn - nValueOut), nBytes := res.nBytes + tx.size);
    }
    return Ok(res);
  }

  /** One pass of the block loop, after the block has been read. */
  method ReadBlockTxs(fFeeOnly: bool, prevouts: map<OutPoint, int>, st0: Stats, block: Block) returns (r: Result<Stats, Error>)
    ensures r == BlockStep(fFeeOnly, prevouts, st0, block)
  {
    var ntx := |block.vtx|;
    var st := st0.(nTxCountAll := st0.nTxCountAll + ntx);
    st := if block.IsProofOfStake() then st.(nTxCount := st.nTxCount + ntx - 2) else st.(nTxCount := st.nTxCount + ntx - 1);
    ghost var st1 := st;
    assert st1 == CountTxs(st0, block);
    var i := 0;
    while i < ntx
      invariant 0 <= i <= ntx
      invariant ApplyTxs(fFeeOnly, prevouts, st1, block.vtx[..i]) == Ok(st)
    {
      TxsStep(fFeeOnly, prevouts, st1, block.vtx, i, st);
      var rt := ReadTx(fFeeOnly, prevouts, st, block.vtx[i]);
      if rt.Err? {
        TxsErrSticky(fFeeOnly, prevouts, st1, block.vtx, i + 1);
        return Err(rt.error);
      }
      st := rt.value;
      i := i + 1;
    }
    assert block.vtx[..ntx] == block.vtx;
    return Ok(st);
  }

  /** `getblockindexstats`: validate the range, then read the blocks from the
      start height, following the active chain, until the end height. */
  method GetBlockIndexStats(params: seq<int>, fFeeOnly: bool, denomList: seq<Denom>, chain: seq<Id>,
                            blocks: map<Id, Block>, prevouts: map<OutPoint, int>) returns (r: Result<Stats, Error>)
    requires |chain| > 0
    ensures r == BlockIndexStats(params, fFeeOnly, denomList, chain, blocks, prevouts)
  {
    var range := ValidateRange(params, |chain| - 1, 1);
    if range.Err? {
      return Err(range.error);
    }
    var heightStart, heightEnd := range.value.0, range.value.1;
    var st := InitStats(denomList);
    // chainActive[heightStart] is null below the genesis block
    if heightStart < 0 {
      return Err(InvalidBlockHeight);
    }
    ghost var ids := chain[heightStart..heightEnd + 1];
    ghost var st0 := st;
    var h := heightStart;
    while true
      invariant heightStart <= h <= heightEnd
      invariant ApplyBlocks(fFeeOnly, blocks, prevouts, st0, ids[..h - heightStart]) == Ok(st)
      decreases heightEnd - h
    {
      assert ids[h - heightStart] == chain[h];
      if chain[h] !in blocks {
        BlocksNext(fFeeOnly, blocks, prevouts, st0, ids, h - heightStart, st, Err(ReadBlockFailed));
        return Err(ReadBlockFailed);
      }
      var rb := ReadBlockTxs(fFeeOnly, prevouts, st, blocks[chain[h]]);
      BlocksNext(fFeeOnly, blocks, prevouts, st0, ids, h - heightStart, st, rb);
      if rb.Err? {
        return rb;
      }
      st := rb.value;
      if h < heightEnd {
        h := h + 1;
      } else {
        break;
      }
    }
    assert ids[..h - heightStart + 1] == ids;
    return Ok(st);
  }

  /** `getfeeinfo`: the start-height check, then `getblockindexstats` over
      `[nBestHeight - nBlocks, nBlocks]` with `fFeeOnly` set. */
  method GetFeeInfo(nBlocks: int, denomList: seq<Denom>, chain: seq<Id>,
                    blocks: map<Id, Block>, prevouts: map<OutPoint, int>) returns (r: Result<Stats, Error>)
    requires |chain| > 0
    ensures r == FeeInfo(nBlocks, denomList, chain, blocks, prevouts)
  {
    var nBestHeight := |chain| - 1;
    var nStartHeight := nBestHeight - nBlocks;
    if nBlocks < 0 || nStartHeight <= 0 {
      return Err(InvalidStartHeight);
    }
    r := GetBlockIndexStats([nStartHeight, nBlocks], true, denomList, chain, blocks, prevouts);
  }
}
