/**
  The unspent-output set digest of `gettxoutsetinfo`: `GetUTXOStats` walks
  the coins cursor, buffers consecutive outputs of one transaction in a
  `std::map<uint32_t, Coin>` keyed by output index, and flushes each buffered
  group through `ApplyStats` into a hash writer and the `CCoinsStats` counters.

  The hash writer is modelled as the sequence of tokens it is fed; the SHA256
  compression behind `CHashWriter::GetHash` and the byte encodings of VARINT
  and of a script are left abstract (tokens `VarInt` and `ScriptTok`).
*/
module UtxoStats {
  import opened Wrappers
  import opened ChainTypes

  type Byte = bv8

  /** A `Coin`: the output (its value and script) plus the metadata of the
      transaction that created it. */
  datatype Coin = Coin(nHeight: nat, fCoinBase: bool, fCoinStake: bool, nValue: int, scriptPubKey: seq<Byte>)

  /** One cursor entry: the key `COutPoint(txid, n)` and its `Coin`. */
  datatype Record = Record(txid: Hash, n: nat, coin: Coin)

  /** What the hash writer is fed: a 256-bit hash, a VARINT, or a script. */
  datatype Token = HashTok(h: Hash) | VarInt(v: int) | ScriptTok(bytes: seq<Byte>)

  /** The running part of `CCoinsStats` together with the hash writer. */
  datatype Digest = Digest(ss: seq<Token>, nTransactions: nat, nTransactionOutputs: nat, nTotalAmount: int)

  /** `CCoinsStats` as returned; `serialized` is the stream whose hash is
      `hashSerialized`. */
  datatype CoinsStats = CoinsStats(
    nHeight: int,
    hashBlock: Hash,
    nTransactions: nat,
    nTransactionOutputs: nat,
    nTotalAmount: int,
    serialized: seq<Token>,
    nDiskSize: nat)

  // ---------------------------------------------------------------------
  // The output buffer: a std::map<uint32_t, Coin>, i.e. an association list
  // kept in strictly ascending key order.
  // ---------------------------------------------------------------------

  type Outputs = seq<(nat, Coin)>

  ghost predicate KeysSorted(b: Outputs) {
    forall i, j :: 0 <= i < j < |b| ==> b[i].0 < b[j].0
  }

  /** The map a buffer stands for. */
  function ToMap(b: Outputs): map<nat, Coin> {
    if |b| == 0 then map[] else ToMap(b[1..])[b[0].0 := b[0].1]
  }

  /** The keys of a buffer's map are the keys it lists. */
  lemma {:induction false} ToMapKeys(b: Outputs, k: nat)
    ensures k in ToMap(b) <==> exists i :: 0 <= i < |b| && b[i].0 == k
    decreases |b|
  {
    if |b| > 0 {
      ToMapKeys(b[1..], k);
      if k in ToMap(b[1..]) {
        var i :| 0 <= i < |b[1..]| && b[1..][i].0 == k;
        assert b[i + 1].0 == k;
      }
      if exists i :: 0 <= i < |b| && b[i].0 == k {
        var i :| 0 <= i < |b| && b[i].0 == k;
        if i > 0 { assert b[1..][i - 1].0 == k; }
      }
    }
  }

  /** `outputs[n] = coin`: insert, or overwrite an existing entry, keeping the
      keys sorted. */
  function Put(b: Outputs, n: nat, c: Coin): (r: Outputs)
    requires KeysSorted(b)
    ensures KeysSorted(r)
    ensures |r| > 0 && (r[0].0 == n || (|b| > 0 && r[0].0 == b[0].0))
  {
    if |b| == 0 then [(n, c)]
    else if n == b[0].0 then [(n, c)] + b[1..]
    else if n < b[0].0 then [(n, c)] + b
    else [b[0]] + Put(b[1..], n, c)
  }

  lemma SortedHeadNotInTail(b: Outputs)
    requires KeysSorted(b) && |b| > 0
    ensures forall k :: 0 <= k <= b[0].0 ==> k !in ToMap(b[1..])
  {
    forall k | 0 <= k <= b[0].0 ensures k !in ToMap(b[1..]) {
      ToMapKeys(b[1..], k);
    }
  }

  /** Put stores `c` under `n` and leaves every other entry as it was. */
  lemma {:induction false} PutToMap(b: Outputs, n: nat, c: Coin)
    requires KeysSorted(b)
    ensures ToMap(Put(b, n, c)) == ToMap(b)[n := c]
    ensures |Put(b, n, c)| == if n in ToMap(b) then |b| else |b| + 1
    decreases |b|
  {
    if |b| > 0 {
      SortedHeadNotInTail(b);
      var r := Put(b, n, c);
      if n == b[0].0 {
        assert r[1..] == b[1..];
      } else if n < b[0].0 {
        assert r[1..] == b;
        ToMapKeys(b, n);
      } else {
        PutToMap(b[1..], n, c);
        assert r[1..] == Put(b[1..], n, c);
        assert ToMap(r) == ToMap(b)[n := c];
      }
    }
  }

  /** The buffer after `outputs[r.n] = r.coin` for every record of `run`, in
      order (the buffer starts empty for each group). */
  function BufferOf(run: seq<Record>): (b: Outputs)
    ensures KeysSorted(b)
    ensures |run| > 0 ==> |b| > 0
  {
    if |run| == 0 then []
    else Put(BufferOf(run[..|run| - 1]), run[|run| - 1].n, run[|run| - 1].coin)
  }

  // ---------------------------------------------------------------------
  // Framing of one flushed group, and its decoder.
  // ---------------------------------------------------------------------

  /** The framed content of one output. */
  datatype OutFrame = OutFrame(n: nat, script: seq<Byte>, value: int)

  /** The framed content of one group: txid, header code and outputs. */
  datatype GroupFrame = GroupFrame(txid: Hash, header: int, outs: seq<OutFrame>)

  /** `nHeight * 4 + (fCoinBase ? 2 : 0) + (fCoinStake ? 1 : 0)`. */
  function HeaderCode(c: Coin): int {
    c.nHeight * 4 + (if c.fCoinBase then 2 else 0) + (if c.fCoinStake then 1 else 0)
  }

  function EncodeOut(o: OutFrame): seq<Token> {
    [VarInt(o.n + 1), ScriptTok(o.script), VarInt(o.value)]
  }

  function EncodeOuts(outs: seq<OutFrame>): seq<Token> {
    if |outs| == 0 then [] else EncodeOut(outs[0]) + EncodeOuts(outs[1..])
  }

  /** The tokens `ApplyStats` writes for one group. */
  function EncodeGroup(g: GroupFrame): seq<Token> {
    [HashTok(g.txid), VarInt(g.header)] + EncodeOuts(g.outs) + [VarInt(0)]
  }

  function EncodeGroups(gs: seq<GroupFrame>): seq<Token> {
    if |gs| == 0 then [] else EncodeGroup(gs[0]) + EncodeGroups(gs[1..])
  }

  /** The whole stream: the best block hash, then every group. */
  function EncodeStream(bestBlock: Hash, gs: seq<GroupFrame>): seq<Token> {
    [HashTok(bestBlock)] + EncodeGroups(gs)
  }

  function OutFramesOf(b: Outputs): (outs: seq<OutFrame>)
    ensures |outs| == |b|
  {
    if |b| == 0 then [] else OutFramesOf(b[..|b| - 1]) + [OutFrame(b[|b| - 1].0, b[|b| - 1].1.scriptPubKey, b[|b| - 1].1.nValue)]
  }

  /** The group frame of a non-empty buffer: the header comes from the coin
      with the lowest output index. */
  function FrameOf(txid: Hash, b: Outputs): GroupFrame
    requires |b| > 0
  {
    GroupFrame(txid, HeaderCode(b[0].1), OutFramesOf(b))
  }

  /** Reads output frames up to and including the `VarInt(0)` terminator. */
  function DecodeOuts(ts: seq<Token>): (r: Option<(seq<OutFrame>, seq<Token>)>)
    ensures r.Some? ==> |r.value.1| < |ts|
    decreases |ts|
  {
    if |ts| == 0 || !ts[0].VarInt? || ts[0].v < 0 then None
    else if ts[0].v == 0 then Some(([], ts[1..]))
    else if |ts| < 3 || !ts[1].ScriptTok? || !ts[2].VarInt? then None
    else
      match DecodeOuts(ts[3..])
      case None => None
      case Some((outs, rest)) => Some(([OutFrame(ts[0].v - 1, ts[1].bytes, ts[2].v)] + outs, rest))
  }

  function DecodeGroups(ts: seq<Token>): Option<seq<GroupFrame>>
    decreases |ts|
  {
    if |ts| == 0 then Some([])
    else if |ts| < 2 || !ts[0].HashTok? || !ts[1].VarInt? then None
    else
      match DecodeOuts(ts[2..])
      case None => None
      case Some((outs, rest)) =>
        match DecodeGroups(rest)
        case None => None
        case Some(gs) => Some([GroupFrame(ts[0].h, ts[1].v, outs)] + gs)
  }

  function DecodeStream(ts: seq<Token>): Option<(Hash, seq<GroupFrame>)> {
    if |ts| == 0 || !ts[0].HashTok? then None
    else
      match DecodeGroups(ts[1..])
      case None => None
      case Some(gs) => Some((ts[0].h, gs))
  }

  lemma {:induction false} DecodeEncodeOuts(outs: seq<OutFrame>, rest: seq<Token>)
    ensures DecodeOuts(EncodeOuts(outs) + [VarInt(0)] + rest) == Some((outs, rest))
    decreases |outs|
  {
    var ts := EncodeOuts(outs) + [VarInt(0)] + rest;
    if |outs| == 0 {
      assert ts == [VarInt(0)] + rest;
      assert ts[1..] == rest;
    } else {
      DecodeEncodeOuts(outs[1..], rest);
      assert ts[3..] == EncodeOuts(outs[1..]) + [VarInt(0)] + rest;
      assert [outs[0]] + outs[1..] == outs;
    }
  }

  /** Decoding one encoded group peels it off and goes on with the rest. */
  lemma DecodeGroupStep(g: GroupFrame, rest: seq<Token>)
    ensures DecodeGroups(EncodeGroup(g) + rest) ==
      if DecodeGroups(rest).Some? then Some([g] + DecodeGroups(rest).value) else None
  {
    var ts := EncodeGroup(g) + rest;
    assert ts[0] == HashTok(g.txid) && ts[1] == VarInt(g.header);
    assert ts[2..] == EncodeOuts(g.outs) + [VarInt(0)] + rest;
    DecodeEncodeOuts(g.outs, rest);
  }

  lemma {:induction false} DecodeEncodeGroups(gs: seq<GroupFrame>)
    ensures DecodeGroups(EncodeGroups(gs)) == Some(gs)
    decreases |gs|
  {
    if |gs| > 0 {
      DecodeGroupStep(gs[0], EncodeGroups(gs[1..]));
      DecodeEncodeGroups(gs[1..]);
      assert [gs[0]] + gs[1..] == gs;
    }
  }

  /** The framing is unambiguous: the stream determines the best block hash and
      every group's txid, header and (index, script, value) outputs. */
  lemma StreamRoundTrip(bestBlock: Hash, gs: seq<GroupFrame>)
    ensures DecodeStream(EncodeStream(bestBlock, gs)) == Some((bestBlock, gs))
  {
    var ts := EncodeStream(bestBlock, gs);
    assert ts[1..] == EncodeGroups(gs);
    DecodeEncodeGroups(gs);
  }

  /** The header code keeps height, coinbase and coinstake apart. */
  lemma HeaderCodeInjective(a: Coin, b: Coin)
    requires HeaderCode(a) == HeaderCode(b)
    ensures a.nHeight == b.nHeight && a.fCoinBase == b.fCoinBase && a.fCoinStake == b.fCoinStake
  {
  }

  // ---------------------------------------------------------------------
  // ApplyStats
  // ---------------------------------------------------------------------

  function SumValues(b: Outputs): int {
    if |b| == 0 then 0 else SumValues(b[..|b| - 1]) + b[|b| - 1].1.nValue
  }

  lemma {:induction false} EncodeOutsAppend(outs: seq<OutFrame>, o: OutFrame)
    ensures EncodeOuts(outs + [o]) == EncodeOuts(outs) + EncodeOut(o)
    decreases |outs|
  {
    if |outs| == 0 {
      assert EncodeOuts([o]) == EncodeOut(o) + EncodeOuts([]);
    } else {
      assert (outs + [o])[1..] == outs[1..] + [o];
      EncodeOutsAppend(outs[1..], o);
    }
  }

  /** The digest after flushing one non-empty group. */
  function Applied(d: Digest, hash: Hash, outputs: Outputs): Digest
    requires |outputs| > 0
  {
    Digest(d.ss + EncodeGroup(FrameOf(hash, outputs)),
           d.nTransactions + 1,
           d.nTransactionOutputs + |outputs|,
           d.nTotalAmount + SumValues(outputs))
  }

  /** Flushes a non-empty group: txid, header of the lowest-index coin, then
      per output in ascending index order `n+1`, script, value, then `0`. */
  method ApplyStats(d: Digest, hash: Hash, outputs: Outputs) returns (d': Digest)
    requires |outputs| > 0 && KeysSorted(outputs)
    ensures d' == Applied(d, hash, outputs)
    ensures d'.ss[|d.ss|] == HashTok(hash)
    ensures d'.ss[|d'.ss| - 1] == VarInt(0)
  {
    var ss := d.ss + [HashTok(hash)];
    var coin := outputs[0].1;
    ss := ss + [VarInt(HeaderCode(coin))];
    var nTransactions := d.nTransactions + 1;
    var nTransactionOutputs := d.nTransactionOutputs;
    var nTotalAmount := d.nTotalAmount;
    var i := 0;
    while i < |outputs|
      invariant 0 <= i <= |outputs|
      invariant ss == d.ss + [HashTok(hash), VarInt(HeaderCode(coin))] + EncodeOuts(OutFramesOf(outputs[..i]))
      invariant nTransactionOutputs == d.nTransactionOutputs + i
      invariant nTotalAmount == d.nTotalAmount + SumValues(outputs[..i])
    {
      var (n, c) := outputs[i];
      ss := ss + [VarInt(n + 1)];
      ss := ss + [ScriptTok(c.scriptPubKey)];
      ss := ss + [VarInt(c.nValue)];
      nTransactionOutputs := nTransactionOutputs + 1;
      nTotalAmount := nTotalAmount + c.nValue;
      assert outputs[..i + 1][..i] == outputs[..i];
      EncodeOutsAppend(OutFramesOf(outputs[..i]), OutFrame(n, c.scriptPubKey, c.nValue));
      i := i + 1;
    }
    ss := ss + [VarInt(0)];
    assert outputs[..i] == outputs;
    d' := Digest(ss, nTransactions, nTransactionOutputs, nTotalAmount);
  }

  // ---------------------------------------------------------------------
  // Grouping the cursor into maximal runs of one txid
  // ---------------------------------------------------------------------

  /** The groups `GetUTXOStats` flushes: maximal runs of records with equal
      txid, in cursor order (a new run starts whenever the txid differs from
      the previous record's). */
  function Runs(recs: seq<Record>): (rs: seq<seq<Record>>)
    ensures forall k :: 0 <= k < |rs| ==> |rs[k]| > 0
    ensures |rs| == 0 <==> |recs| == 0
    ensures |recs| > 0 ==> rs[|rs| - 1][|rs[|rs| - 1]| - 1] == recs[|recs| - 1]
  {
    if |recs| == 0 then []
    else
      var rs := Runs(recs[..|recs| - 1]);
      var r := recs[|recs| - 1];
      if |recs| > 1 && recs[|recs| - 2].txid == r.txid then
        rs[..|rs| - 1] + [rs[|rs| - 1] + [r]]
      else
        rs + [[r]]
  }

  function Concat(rs: seq<seq<Record>>): seq<Record> {
    if |rs| == 0 then [] else Concat(rs[..|rs| - 1]) + rs[|rs| - 1]
  }

  ghost predicate SameTxid(run: seq<Record>) {
    forall i :: 0 <= i < |run| ==> run[i].txid == run[0].txid
  }

  /** How the runs grow by one record: the record joins the last run when it
      has the previous record's txid, and opens a new run otherwise. */
  lemma RunsSnoc(p: seq<Record>, r: Record)
    ensures Runs(p + [r]) ==
      if |p| > 0 && p[|p| - 1].txid == r.txid then Runs(p)[..|Runs(p)| - 1] + [Runs(p)[|Runs(p)| - 1] + [r]]
      else Runs(p) + [[r]]
  {
    assert (p + [r])[..|p|] == p;
  }

  /** Concatenated, the runs give the records back. */
  lemma {:induction false} RunsConcat(recs: seq<Record>)
    ensures Concat(Runs(recs)) == recs
    decreases |recs|
  {
    if |recs| > 0 {
      var p, r := recs[..|recs| - 1], recs[|recs| - 1];
      assert p + [r] == recs;
      RunsConcat(p);
      var rs: seq<seq<Record>>, rs': seq<seq<Record>> := Runs(p), Runs(recs);
      if |recs| > 1 && recs[|recs| - 2].txid == r.txid {
        var last := rs[|rs| - 1];
        assert rs[..|rs| - 1] + [last] == rs;
        assert rs' == rs[..|rs| - 1] + [last + [r]];
        assert rs'[..|rs'| - 1] == rs[..|rs| - 1];
        assert Concat(rs') == Concat(rs[..|rs| - 1]) + last + [r];
      } else {
        assert rs' == rs + [[r]];
        assert rs'[..|rs'| - 1] == rs;
      }
    }
  }

  /** Every run holds records of one txid. */
  lemma {:induction false} RunsSameTxid(recs: seq<Record>)
    ensures forall k :: 0 <= k < |Runs(recs)| ==> SameTxid(Runs(recs)[k])
    decreases |recs|
  {
    if |recs| > 0 {
      var p, r := recs[..|recs| - 1], recs[|recs| - 1];
      assert p + [r] == recs;
      RunsSameTxid(p);
      RunsSnoc(p, r);
      var rs: seq<seq<Record>> := Runs(p);
      if |p| > 0 && p[|p| - 1].txid == r.txid {
        assert rs[|rs| - 1][|rs[|rs| - 1]| - 1] == p[|p| - 1];
        AllSameTxidExtend(rs, r);
      } else {
        AllSameTxidAppend(rs, r);
      }
    }
  }

  /** A record with the txid of the last run's last record keeps every run
      one txid when it joins that run. */
  lemma AllSameTxidExtend(rs: seq<seq<Record>>, r: Record)
    requires |rs| > 0 && |rs[|rs| - 1]| > 0 && forall k :: 0 <= k < |rs| ==> SameTxid(rs[k])
    requires rs[|rs| - 1][|rs[|rs| - 1]| - 1].txid == r.txid
    ensures var rs' := rs[..|rs| - 1] + [rs[|rs| - 1] + [r]];
      forall k :: 0 <= k < |rs'| ==> SameTxid(rs'[k])
  {
    var last := rs[|rs| - 1];
    var ext := last + [r];
    assert SameTxid(ext) by {
      assert SameTxid(last);
      forall i | 0 <= i < |ext| ensures ext[i].txid == ext[0].txid {
        if i < |last| { assert ext[i] == last[i]; }
      }
    }
    var rs' := rs[..|rs| - 1] + [ext];
    forall k | 0 <= k < |rs'| ensures SameTxid(rs'[k]) {
      if k < |rs| - 1 { assert rs'[k] == rs[k]; }
    }
  }

  /** A new run of one record keeps every run one txid. */
  lemma AllSameTxidAppend(rs: seq<seq<Record>>, r: Record)
    requires forall k :: 0 <= k < |rs| ==> SameTxid(rs[k])
    ensures forall k :: 0 <= k < |rs + [[r]]| ==> SameTxid((rs + [[r]])[k])
  {
    var rs' := rs + [[r]];
    forall k | 0 <= k < |rs'| ensures SameTxid(rs'[k]) {
      if k < |rs| { assert rs'[k] == rs[k]; }
    }
  }

  /** Neighbouring runs of `rs` start with different txids. */
  ghost predicate HeadsDiffer(rs: seq<seq<Record>>)
    requires forall k :: 0 <= k < |rs| ==> |rs[k]| > 0
  {
    forall k :: 0 < k < |rs| ==> rs[k - 1][0].txid != rs[k][0].txid
  }

  /** Growing the last run keeps the run heads. */
  lemma ExtendLastRun(rs: seq<seq<Record>>, r: Record)
    requires |rs| > 0 && forall k :: 0 <= k < |rs| ==> |rs[k]| > 0
    requires HeadsDiffer(rs)
    ensures var rs' := rs[..|rs| - 1] + [rs[|rs| - 1] + [r]];
      (forall k :: 0 <= k < |rs'| ==> |rs'[k]| > 0) && HeadsDiffer(rs')
  {
    var rs' := rs[..|rs| - 1] + [rs[|rs| - 1] + [r]];
    forall k | 0 <= k < |rs'| ensures rs'[k][0] == rs[k][0] {
      if k < |rs| - 1 { assert rs'[k] == rs[k]; }
    }
  }

  /** A new run whose txid differs from the last run's keeps heads apart. */
  lemma AppendRun(rs: seq<seq<Record>>, r: Record)
    requires forall k :: 0 <= k < |rs| ==> |rs[k]| > 0
    requires HeadsDiffer(rs)
    requires |rs| > 0 ==> rs[|rs| - 1][0].txid != r.txid
    ensures var rs' := rs + [[r]];
      (forall k :: 0 <= k < |rs'| ==> |rs'[k]| > 0) && HeadsDiffer(rs')
  {
    var rs' := rs + [[r]];
    forall k | 0 <= k < |rs| ensures rs'[k] == rs[k] {
    }
  }

  /** Neighbouring runs have different txids: the runs are maximal. */
  lemma {:induction false} RunsMaximal(recs: seq<Record>)
    ensures forall k :: 0 < k < |Runs(recs)| ==> Runs(recs)[k - 1][0].txid != Runs(recs)[k][0].txid
    decreases |recs|
  {
    if |recs| > 0 {
      var p, r := recs[..|recs| - 1], recs[|recs| - 1];
      RunsMaximal(p);
      var rs: seq<seq<Record>> := Runs(p);
      assert HeadsDiffer(rs);
      if |recs| > 1 && recs[|recs| - 2].txid == r.txid {
        ExtendLastRun(rs, r);
      } else {
        if |p| > 0 {
          RunsSameTxid(p);
          var last := rs[|rs| - 1];
          assert SameTxid(last);
          assert last[0].txid == recs[|recs| - 2].txid;
        }
        AppendRun(rs, r);
      }
      assert HeadsDiffer(Runs(recs));
    }
  }

  // ---------------------------------------------------------------------
  // GetUTXOStats
  // ---------------------------------------------------------------------

  /** The digest after flushing every run of `runs`, in order. */
  function FlushRuns(d: Digest, runs: seq<seq<Record>>): Digest
    requires forall k :: 0 <= k < |runs| ==> |runs[k]| > 0
  {
    if |runs| == 0 then d
    else
      var run := runs[|runs| - 1];
      Applied(FlushRuns(d, runs[..|runs| - 1]), run[|run| - 1].txid, BufferOf(run))
  }

  predicate AllReadable(cursor: seq<Option<Record>>) {
    forall i :: 0 <= i < |cursor| ==> cursor[i].Some?
  }

  function Values(cursor: seq<Option<Record>>): (recs: seq<Record>)
    requires AllReadable(cursor)
    ensures |recs| == |cursor|
    ensures forall i :: 0 <= i < |cursor| ==> recs[i] == cursor[i].value
  {
    seq(|cursor|, i requires 0 <= i < |cursor| => cursor[i].value)
  }

  /** What `GetUTXOStats` computes: nothing when an entry cannot be read,
      otherwise the statistics over every run of the cursor. */
  function UtxoStatsOf(cursor: seq<Option<Record>>, bestBlock: Hash, bestHeight: int, diskSize: nat): Option<CoinsStats> {
    if !AllReadable(cursor) then None
    else
      var d := FlushRuns(Digest([HashTok(bestBlock)], 0, 0, 0), Runs(Values(cursor)));
      Some(CoinsStats(bestHeight, bestBlock, d.nTransactions, d.nTransactionOutputs, d.nTotalAmount, d.ss, diskSize))
  }

  // ---------------------------------------------------------------------
  // What the buffer holds: the last coin written under each output index
  // ---------------------------------------------------------------------

  /** The buffer lists exactly the output indices that occur in the group. */
  lemma {:induction false} BufferKeys(run: seq<Record>, k: nat)
    ensures k in ToMap(BufferOf(run)) <==> exists i :: 0 <= i < |run| && run[i].n == k
    decreases |run|
  {
    if |run| > 0 {
      var p, r := run[..|run| - 1], run[|run| - 1];
      BufferKeys(p, k);
      PutToMap(BufferOf(p), r.n, r.coin);
      if exists i :: 0 <= i < |p| && p[i].n == k {
        var i :| 0 <= i < |p| && p[i].n == k;
        assert run[i].n == k;
      }
      if exists i :: 0 <= i < |run| && run[i].n == k {
        var i :| 0 <= i < |run| && run[i].n == k;
        if i < |p| { assert p[i].n == k; }
      }
    }
  }

  /** A later record with the same output index overwrites an earlier one:
      the buffer keeps the coin of the last record written under each index. */
  lemma {:induction false} BufferLastWrite(run: seq<Record>, j: nat)
    requires j < |run|
    requires forall k :: j < k < |run| ==> run[k].n != run[j].n
    ensures run[j].n in ToMap(BufferOf(run)) && ToMap(BufferOf(run))[run[j].n] == run[j].coin
    decreases |run|
  {
    var p, r := run[..|run| - 1], run[|run| - 1];
    PutToMap(BufferOf(p), r.n, r.coin);
    if j < |p| {
      BufferLastWrite(p, j);
    }
  }

  ghost predicate DistinctIndices(run: seq<Record>) {
    forall i, j :: 0 <= i < j < |run| ==> run[i].n != run[j].n
  }

  lemma {:induction false} SumValuesCons(x: (nat, Coin), t: Outputs)
    ensures SumValues([x] + t) == x.1.nValue + SumValues(t)
    decreases |t|
  {
    if |t| > 0 {
      var t' := t[..|t| - 1];
      assert ([x] + t)[..|t|] == [x] + t';
      SumValuesCons(x, t');
    }
  }

  lemma ToMapHead(b: Outputs)
    ensures |b| > 0 ==> b[0].0 in ToMap(b) && ToMap(b) != map[]
  {
  }

  /** Two key-sorted buffers that stand for the same map are the same list. */
  lemma {:induction false} SortedUnique(b1: Outputs, b2: Outputs)
    requires KeysSorted(b1) && KeysSorted(b2) && ToMap(b1) == ToMap(b2)
    ensures b1 == b2
    decreases |b1|
  {
    ToMapHead(b1);
    ToMapHead(b2);
    if |b1| > 0 && |b2| > 0 {
      SortedHeadNotInTail(b1);
      SortedHeadNotInTail(b2);
      ToMapKeys(b1, b2[0].0);
      ToMapKeys(b2, b1[0].0);
      assert b1[0].0 == b2[0].0;
      assert ToMap(b1[1..]) == ToMap(b1) - {b1[0].0};
      assert ToMap(b2[1..]) == ToMap(b2) - {b2[0].0};
      SortedUnique(b1[1..], b2[1..]);
      assert b1 == [b1[0]] + b1[1..];
      assert b2 == [b2[0]] + b2[1..];
    }
  }

  /** Each coin the buffer of `g1` holds, the buffer of a reordering `g2`
      holds too. */
  lemma BufferSubsumes(g1: seq<Record>, g2: seq<Record>, k: nat)
    requires multiset(g1) == multiset(g2)
    requires DistinctIndices(g1) && DistinctIndices(g2)
    requires k in ToMap(BufferOf(g1))
    ensures k in ToMap(BufferOf(g2)) && ToMap(BufferOf(g1))[k] == ToMap(BufferOf(g2))[k]
  {
    BufferKeys(g1, k);
    var i :| 0 <= i < |g1| && g1[i].n == k;
    assert g1[i] in multiset(g2);
    var j :| 0 <= j < |g2| && g2[j] == g1[i];
    BufferLastWrite(g1, i);
    BufferLastWrite(g2, j);
  }

  /** Reordering the records of one group does not change what is flushed,
      provided its output indices are distinct (as outpoints in a coins view
      are). */
  lemma GroupOrderIrrelevant(g1: seq<Record>, g2: seq<Record>)
    requires multiset(g1) == multiset(g2)
    requires DistinctIndices(g1) && DistinctIndices(g2)
    ensures BufferOf(g1) == BufferOf(g2)
  {
    var m1, m2 := ToMap(BufferOf(g1)), ToMap(BufferOf(g2));
    forall k | k in m1 ensures k in m2 && m1[k] == m2[k] {
      BufferSubsumes(g1, g2, k);
    }
    forall k | k in m2 ensures k in m1 {
      BufferSubsumes(g2, g1, k);
    }
    assert m1 == m2;
    SortedUnique(BufferOf(g1), BufferOf(g2));
  }

  /** A non-empty group of one txid is a single run. */
  lemma {:induction false} RunsSingle(g: seq<Record>)
    requires |g| > 0 && SameTxid(g)
    ensures Runs(g) == [g]
    decreases |g|
  {
    var p, r := g[..|g| - 1], g[|g| - 1];
    assert p + [r] == g;
    if |g| == 1 {
      RunsOne(r);
    } else {
      assert SameTxid(p) by {
        forall i | 0 <= i < |p| ensures p[i].txid == p[0].txid {
          assert p[i] == g[i];
        }
      }
      assert p[|p| - 1] == g[|g| - 2];
      RunsSingle(p);
      RunsJoinSingle(p, r);
    }
  }

  /** One record is one run. */
  lemma RunsOne(r: Record)
    ensures Runs([r]) == [[r]]
  {
    RunsSnoc([], r);
    assert [] + [r] == [r];
  }

  /** A record with the txid of a single run joins it. */
  lemma RunsJoinSingle(p: seq<Record>, r: Record)
    requires |p| > 0 && Runs(p) == [p] && p[|p| - 1].txid == r.txid
    ensures Runs(p + [r]) == [p + [r]]
  {
    RunsSnoc(p, r);
    var single: seq<seq<Record>> := [p];
    assert single[..0] + [p + [r]] == [p + [r]];
  }

  /** Growing the last run of `ys`, placed after `xs`, is growing the last run
      of `xs + ys`. */
  lemma ExtendLastRunAfter(xs: seq<seq<Record>>, ys: seq<seq<Record>>, r: Record)
    requires |ys| > 0
    ensures var zs := xs + ys;
      zs[..|zs| - 1] + [zs[|zs| - 1] + [r]] == xs + (ys[..|ys| - 1] + [ys[|ys| - 1] + [r]])
  {
    var zs := xs + ys;
    assert zs[..|zs| - 1] == xs + ys[..|ys| - 1];
  }

  /** At a txid boundary the runs of a concatenation are the runs of each
      side. */
  lemma {:induction false} RunsAppend(a: seq<Record>, b: seq<Record>)
    requires |a| > 0 && |b| > 0 ==> a[|a| - 1].txid != b[0].txid
    ensures Runs(a + b) == Runs(a) + Runs(b)
    decreases |b|
  {
    if |a| == 0 {
      assert a + b == b;
    } else if |b| == 0 {
      assert a + b == a;
    } else if |b| == 1 {
      assert b == [b[0]];
      RunsSnoc(a, b[0]);
      RunsSingle(b);
    } else {
      var b', r := b[..|b| - 1], b[|b| - 1];
      assert a + b == (a + b') + [r];
      assert b' + [r] == b;
      RunsAppend(a, b');
      RunsAppendStep(a, b', r);
    }
  }

  /** One record more on the right of a txid boundary. */
  lemma RunsAppendStep(a: seq<Record>, b: seq<Record>, r: Record)
    requires |a| > 0 && |b| > 0 && Runs(a + b) == Runs(a) + Runs(b)
    ensures Runs(a + b + [r]) == Runs(a) + Runs(b + [r])
  {
    if b[|b| - 1].txid == r.txid {
      RunsJoinAfter(a, b, r);
    } else {
      RunsOpenAfter(a, b, r);
    }
  }

  /** `RunsAppendStep` when the record joins the last run of `b`. */
  lemma RunsJoinAfter(a: seq<Record>, b: seq<Record>, r: Record)
    requires |a| > 0 && |b| > 0 && Runs(a + b) == Runs(a) + Runs(b)
    requires b[|b| - 1].txid == r.txid
    ensures Runs(a + b + [r]) == Runs(a) + Runs(b + [r])
  {
    var ab := a + b;
    assert ab[|ab| - 1] == b[|b| - 1];
    RunsSnoc(ab, r);
    RunsSnoc(b, r);
    ExtendLastRunAfter(Runs(a), Runs(b), r);
  }

  /** `RunsAppendStep` when the record opens a new run. */
  lemma RunsOpenAfter(a: seq<Record>, b: seq<Record>, r: Record)
    requires |a| > 0 && |b| > 0 && Runs(a + b) == Runs(a) + Runs(b)
    requires b[|b| - 1].txid != r.txid
    ensures Runs(a + b + [r]) == Runs(a) + Runs(b + [r])
  {
    var ab := a + b;
    assert ab[|ab| - 1] == b[|b| - 1];
    RunsSnoc(ab, r);
    RunsSnoc(b, r);
    var xs, ys := Runs(a), Runs(b);
    assert (xs + ys) + [[r]] == xs + (ys + [[r]]);
  }

  /** Flushing a concatenation of runs is flushing one list after the other. */
  lemma {:induction false} FlushRunsAppend(d: Digest, r1: seq<seq<Record>>, r2: seq<seq<Record>>)
    requires forall k :: 0 <= k < |r1| ==> |r1[k]| > 0
    requires forall k :: 0 <= k < |r2| ==> |r2[k]| > 0
    ensures FlushRuns(d, r1 + r2) == FlushRuns(FlushRuns(d, r1), r2)
    decreases |r2|
  {
    if |r2| == 0 {
      assert r1 + r2 == r1;
    } else {
      var init, run := r2[..|r2| - 1], r2[|r2| - 1];
      assert r1 + r2 == (r1 + init) + [run];
      assert init + [run] == r2;
      FlushRunsAppend(d, r1, init);
      FlushRunsSnoc(d, r1 + init, run);
      FlushRunsSnoc(FlushRuns(d, r1), init, run);
    }
  }

  /** Flushing one more run. */
  lemma FlushRunsSnoc(d: Digest, rs: seq<seq<Record>>, run: seq<Record>)
    requires |run| > 0 && forall k :: 0 <= k < |rs| ==> |rs[k]| > 0
    ensures forall k :: 0 <= k < |rs + [run]| ==> |(rs + [run])[k]| > 0
    ensures FlushRuns(d, rs + [run]) == Applied(FlushRuns(d, rs), run[|run| - 1].txid, BufferOf(run))
  {
    assert (rs + [run])[..|rs|] == rs;
  }

  /** The digest over records `p + g + q`, where `g` is a whole group of one
      txid: the runs of `p`, then `g` flushed as one group, then the runs of
      `q`. */
  lemma DigestAroundGroup(d0: Digest, p: seq<Record>, g: seq<Record>, q: seq<Record>)
    requires |g| > 0 && SameTxid(g)
    requires |p| > 0 ==> p[|p| - 1].txid != g[0].txid
    requires |q| > 0 ==> q[0].txid != g[0].txid
    ensures FlushRuns(d0, Runs(p + g + q)) == FlushRuns(Applied(FlushRuns(d0, Runs(p)), g[0].txid, BufferOf(g)), Runs(q))
  {
    RunsSingle(g);
    RunsAppend(p, g);
    RunsAppend(p + g, q);
    FlushRunsAppend(d0, Runs(p) + [g], Runs(q));
    FlushRunsAppend(d0, Runs(p), [g]);
    var single: seq<seq<Record>> := [g];
    assert single[..0] == [];
  }

  /** The statistics do not depend on the order of the records within one
      txid group: reordering a whole group (with distinct output indices)
      between the same neighbours leaves the digest unchanged. */
  lemma DigestGroupOrder(d0: Digest, p: seq<Record>, g1: seq<Record>, g2: seq<Record>, q: seq<Record>)
    requires |g1| > 0 && multiset(g1) == multiset(g2)
    requires DistinctIndices(g1) && DistinctIndices(g2) && SameTxid(g1) && SameTxid(g2)
    requires |p| > 0 ==> p[|p| - 1].txid != g1[0].txid
    requires |q| > 0 ==> q[0].txid != g1[0].txid
    ensures FlushRuns(d0, Runs(p + g1 + q)) == FlushRuns(d0, Runs(p + g2 + q))
  {
    assert g1[0] in multiset(g2);
    assert |g2| > 0 && g2[0].txid == g1[0].txid;
    GroupOrderIrrelevant(g1, g2);
    DigestAroundGroup(d0, p, g1, q);
    DigestAroundGroup(d0, p, g2, q);
  }

  /** The same at the level of `GetUTXOStats`: two cursors that differ only
      in the order of one txid group give the same statistics. */
  lemma UtxoStatsGroupOrder(c1: seq<Option<Record>>, c2: seq<Option<Record>>, p: seq<Record>, g1: seq<Record>, g2: seq<Record>, q: seq<Record>,
                            bestBlock: Hash, bestHeight: int, diskSize: nat)
    requires AllReadable(c1) && AllReadable(c2) && Values(c1) == p + g1 + q && Values(c2) == p + g2 + q
    requires |g1| > 0 && multiset(g1) == multiset(g2)
    requires DistinctIndices(g1) && DistinctIndices(g2) && SameTxid(g1) && SameTxid(g2)
    requires |p| > 0 ==> p[|p| - 1].txid != g1[0].txid
    requires |q| > 0 ==> q[0].txid != g1[0].txid
    ensures UtxoStatsOf(c1, bestBlock, bestHeight, diskSize) == UtxoStatsOf(c2, bestBlock, bestHeight, diskSize)
  {
    DigestGroupOrder(Digest([HashTok(bestBlock)], 0, 0, 0), p, g1, g2, q);
  }

  /** The header of a flushed group is that of the coin with the lowest output
      index. */
  lemma HeaderFromLowestIndex(run: seq<Record>, j: nat)
    requires j < |run|
    requires forall k :: 0 <= k < |run| ==> run[j].n <= run[k].n
    requires forall k :: j < k < |run| ==> run[k].n != run[j].n
    ensures FrameOf(run[j].txid, BufferOf(run)).header == HeaderCode(run[j].coin)
  {
    var b := BufferOf(run);
    BufferLastWrite(run, j);
    ToMapKeys(b, run[j].n);
    var i :| 0 <= i < |b| && b[i].0 == run[j].n;
    assert b[0].0 <= b[i].0;
    BufferKeys(run, b[0].0);
    SortedHeadNotInTail(b);
  }

  // ---------------------------------------------------------------------
  // The counters against the unspent-output map
  // ---------------------------------------------------------------------

  /** The coins view as a dictionary: each outpoint with the last coin the
      cursor gives for it. */
  function Unspent(recs: seq<Record>): map<OutPoint, Coin> {
    if |recs| == 0 then map[]
    else Unspent(recs[..|recs| - 1])[(recs[|recs| - 1].txid, recs[|recs| - 1].n) := recs[|recs| - 1].coin]
  }

  /** The sum of the values of the coins that `m` holds under the keys `ks`. */
  ghost function KeysTotal(m: map<OutPoint, Coin>, ks: set<OutPoint>): int
    requires ks <= m.Keys
  {
    if ks == {} then 0
    else
      var k :| k in ks;
      m[k].nValue + KeysTotal(m, ks - {k})
  }

  /** The sum of the values of the coins of a dictionary. */
  ghost function MapTotal(m: map<OutPoint, Coin>): int {
    KeysTotal(m, m.Keys)
  }

  lemma {:induction false} KeysTotalRemove(m: map<OutPoint, Coin>, ks: set<OutPoint>, k: OutPoint)
    requires ks <= m.Keys && k in ks
    ensures KeysTotal(m, ks) == m[k].nValue + KeysTotal(m, ks - {k})
    decreases ks
  {
    var j :| j in ks && KeysTotal(m, ks) == m[j].nValue + KeysTotal(m, ks - {j});
    if j != k {
      var kj, kk := ks - {j}, ks - {k};
      KeysTotalRemove(m, kj, k);
      KeysTotalRemove(m, kk, j);
      assert kj - {k} == kk - {j};
    }
  }

  /** Only the coins under `ks` count. */
  lemma {:induction false} KeysTotalFrame(m1: map<OutPoint, Coin>, m2: map<OutPoint, Coin>, ks: set<OutPoint>)
    requires ks <= m1.Keys && ks <= m2.Keys
    requires forall k :: k in ks ==> m1[k] == m2[k]
    ensures KeysTotal(m1, ks) == KeysTotal(m2, ks)
    decreases ks
  {
    if ks != {} {
      var k :| k in ks;
      KeysTotalRemove(m1, ks, k);
      KeysTotalRemove(m2, ks, k);
      KeysTotalFrame(m1, m2, ks - {k});
    }
  }

  lemma MapTotalUpdate(m: map<OutPoint, Coin>, k: OutPoint, c: Coin)
    ensures MapTotal(m[k := c]) == MapTotal(m) - (if k in m then m[k].nValue else 0) + c.nValue
  {
    var m' := m[k := c];
    var rest := m.Keys - {k};
    KeysTotalRemove(m', m'.Keys, k);
    assert m'.Keys - {k} == rest;
    KeysTotalFrame(m', m, rest);
    if k in m {
      KeysTotalRemove(m, m.Keys, k);
    } else {
      assert rest == m.Keys;
    }
  }

  lemma {:induction false} PutSum(b: Outputs, n: nat, c: Coin)
    requires KeysSorted(b)
    ensures SumValues(Put(b, n, c)) == SumValues(b) - (if n in ToMap(b) then ToMap(b)[n].nValue else 0) + c.nValue
    decreases |b|
  {
    if |b| == 0 {
      assert SumValues([(n, c)]) == SumValues([]) + c.nValue;
    } else {
      SumValuesCons(b[0], b[1..]);
      assert [b[0]] + b[1..] == b;
      SortedHeadNotInTail(b);
      if n == b[0].0 {
        SumValuesCons((n, c), b[1..]);
      } else if n < b[0].0 {
        SumValuesCons((n, c), b);
        ToMapKeys(b, n);
      } else {
        PutSum(b[1..], n, c);
        SumValuesCons(b[0], Put(b[1..], n, c));
      }
    }
  }

  /** Some record carries every key of the dictionary. */
  lemma {:induction false} UnspentKeys(recs: seq<Record>, op: OutPoint)
    ensures op in Unspent(recs) ==> exists i :: 0 <= i < |recs| && recs[i].txid == op.0
    decreases |recs|
  {
    if |recs| > 0 {
      var p := recs[..|recs| - 1];
      UnspentKeys(p, op);
      if op in Unspent(p) {
        var i :| 0 <= i < |p| && p[i].txid == op.0;
        assert recs[i] == p[i];
      }
    }
  }

  /** On a contiguous cursor, a record whose txid differs from the previous
      one's opens a txid never seen before. */
  lemma NewTxidFresh(seen: seq<Record>, n: nat)
    requires Contiguous(seen) && |seen| > 1 && seen[|seen| - 2].txid != seen[|seen| - 1].txid
    ensures (seen[|seen| - 1].txid, n) !in Unspent(seen[..|seen| - 1])
  {
    var p, t := seen[..|seen| - 1], seen[|seen| - 1].txid;
    forall i | 0 <= i < |p| ensures p[i].txid != t {
      assert p[i] == seen[i];
    }
    UnspentKeys(p, (t, n));
  }

  /** Every txid occupies one contiguous stretch of the cursor, as the coins
      view's key order guarantees. */
  ghost predicate Contiguous(recs: seq<Record>) {
    forall i, j, k :: 0 <= i < j < k < |recs| && recs[i].txid == recs[k].txid ==> recs[j].txid == recs[i].txid
  }

  lemma ContiguousInit(s: seq<Record>)
    requires Contiguous(s) && |s| > 0
    ensures Contiguous(s[..|s| - 1])
  {
    var p := s[..|s| - 1];
    forall i, j, k | 0 <= i < j < k < |p| && p[i].txid == p[k].txid ensures p[j].txid == p[i].txid {
      assert s[i] == p[i] && s[j] == p[j] && s[k] == p[k];
    }
  }

  /** A record that opens a run: the buffer holds just that record. */
  lemma NewRunBuffer(seen: seq<Record>)
    requires |seen| > 1 && seen[|seen| - 2].txid != seen[|seen| - 1].txid
    ensures ToMap(Pending(seen)) == map[seen[|seen| - 1].n := seen[|seen| - 1].coin]
  {
    var p, r := seen[..|seen| - 1], seen[|seen| - 1];
    assert p + [r] == seen;
    PendingStep(p, r);
    assert Pending(seen) == Put([], r.n, r.coin);
    PutToMap([], r.n, r.coin);
  }

  /** A record that opens a new txid: the buffer holds just that record and
      the dictionary held nothing of that txid. */
  lemma PendingAgreesNewRun(seen: seq<Record>, n: nat)
    requires |seen| > 1 && seen[|seen| - 2].txid != seen[|seen| - 1].txid
    requires (seen[|seen| - 1].txid, n) !in Unspent(seen[..|seen| - 1])
    ensures var t := seen[|seen| - 1].txid;
            (n in ToMap(Pending(seen)) <==> (t, n) in Unspent(seen))
            && (n in ToMap(Pending(seen)) ==> ToMap(Pending(seen))[n] == Unspent(seen)[(t, n)])
  {
    NewRunBuffer(seen);
    var r := seen[|seen| - 1];
    assert Unspent(seen) == Unspent(seen[..|seen| - 1])[(r.txid, r.n) := r.coin];
  }

  /** On a contiguous cursor the buffer agrees with the dictionary on the
      outpoints of the current txid. */
  lemma {:induction false} PendingAgrees(seen: seq<Record>, n: nat)
    requires Contiguous(seen) && |seen| > 0
    ensures var t := seen[|seen| - 1].txid;
            (n in ToMap(Pending(seen)) <==> (t, n) in Unspent(seen))
            && (n in ToMap(Pending(seen)) ==> ToMap(Pending(seen))[n] == Unspent(seen)[(t, n)])
    decreases |seen|
  {
    var p, r := seen[..|seen| - 1], seen[|seen| - 1];
    assert p + [r] == seen;
    if |p| > 0 && p[|p| - 1].txid != r.txid {
      NewTxidFresh(seen, n);
      PendingAgreesNewRun(seen, n);
    } else if |p| > 0 {
      ContiguousInit(seen);
      PendingAgrees(p, n);
      PendingStep(p, r);
      PutToMap(Pending(p), r.n, r.coin);
    } else {
      PendingStep(p, r);
      PutToMap([], r.n, r.coin);
    }
  }

  /** What the loop has flushed plus what it still buffers accounts for every
      outpoint of the dictionary exactly once. */
  lemma {:induction false} ScanCounts(d0: Digest, seen: seq<Record>)
    requires Contiguous(seen)
    ensures FlushRuns(d0, Closed(seen)).nTransactionOutputs + |Pending(seen)| == d0.nTransactionOutputs + |Unspent(seen)|
    ensures FlushRuns(d0, Closed(seen)).nTotalAmount + SumValues(Pending(seen)) == d0.nTotalAmount + MapTotal(Unspent(seen))
    decreases |seen|
  {
    if |seen| == 0 {
      assert MapTotal(map[]) == 0;
    } else {
      var p, r := seen[..|seen| - 1], seen[|seen| - 1];
      assert p + [r] == seen;
      assert Contiguous(p);
      ScanCounts(d0, p);
      ScanStep(d0, p, r);
      var op := (r.txid, r.n);
      MapTotalUpdate(Unspent(p), op, r.coin);
      if |p| > 0 && p[|p| - 1].txid != r.txid {
        NewTxidFresh(seen, r.n);
        PutSum([], r.n, r.coin);
      } else if |p| > 0 {
        PendingAgrees(p, r.n);
        PutToMap(Pending(p), r.n, r.coin);
        PutSum(Pending(p), r.n, r.coin);
      } else {
        PutSum([], r.n, r.coin);
      }
    }
  }

  /** On a contiguous cursor, `nTransactionOutputs` is the number of distinct
      outpoints and `nTotalAmount` the sum of their values, a later record for
      the same outpoint replacing an earlier one. */
  lemma DigestCountsUnspent(cursor: seq<Option<Record>>, bestBlock: Hash, bestHeight: int, diskSize: nat)
    requires AllReadable(cursor) && Contiguous(Values(cursor))
    ensures var st := UtxoStatsOf(cursor, bestBlock, bestHeight, diskSize).value;
            st.nTransactionOutputs == |Unspent(Values(cursor))|
            && st.nTotalAmount == MapTotal(Unspent(Values(cursor)))
  {
    var recs := Values(cursor);
    var d0 := Digest([HashTok(bestBlock)], 0, 0, 0);
    ScanCounts(d0, recs);
    if |recs| > 0 {
      ScanFinish(d0, recs);
    } else {
      assert MapTotal(map[]) == 0;
    }
  }

  /** An unreadable entry anywhere fails the whole digest; otherwise it
      succeeds, and its stream starts with the best block hash. */
  lemma UnreadableEntryFails(cursor: seq<Option<Record>>, bestBlock: Hash, bestHeight: int, diskSize: nat)
    ensures UtxoStatsOf(cursor, bestBlock, bestHeight, diskSize).None? <==> exists i :: 0 <= i < |cursor| && cursor[i].None?
    ensures UtxoStatsOf(cursor, bestBlock, bestHeight, diskSize).Some? ==>
              UtxoStatsOf(cursor, bestBlock, bestHeight, diskSize).value.serialized[0] == HashTok(bestBlock)
  {
    if AllReadable(cursor) {
      FlushRunsExtends(Digest([HashTok(bestBlock)], 0, 0, 0), Runs(Values(cursor)));
    }
  }

  /** The group frames of `runs`, one per run, in order. */
  function Frames(runs: seq<seq<Record>>): (gs: seq<GroupFrame>)
    requires forall k :: 0 <= k < |runs| ==> |runs[k]| > 0
    ensures |gs| == |runs|
  {
    if |runs| == 0 then []
    else
      var run := runs[|runs| - 1];
      Frames(runs[..|runs| - 1]) + [FrameOf(run[|run| - 1].txid, BufferOf(run))]
  }

  lemma {:induction false} EncodeGroupsAppend(gs: seq<GroupFrame>, g: GroupFrame)
    ensures EncodeGroups(gs + [g]) == EncodeGroups(gs) + EncodeGroup(g)
    decreases |gs|
  {
    if |gs| == 0 {
      assert gs + [g] == [g];
    } else {
      assert (gs + [g])[1..] == gs[1..] + [g];
      EncodeGroupsAppend(gs[1..], g);
    }
  }

  /** Flushing runs appends exactly their encoded frames and counts one
      transaction per run. */
  lemma {:induction false} FlushRunsStream(d: Digest, runs: seq<seq<Record>>)
    requires forall k :: 0 <= k < |runs| ==> |runs[k]| > 0
    ensures FlushRuns(d, runs).ss == d.ss + EncodeGroups(Frames(runs))
    ensures FlushRuns(d, runs).nTransactions == d.nTransactions + |runs|
    decreases |runs|
  {
    if |runs| > 0 {
      var init := runs[..|runs| - 1];
      var run := runs[|runs| - 1];
      FlushRunsStream(d, init);
      EncodeGroupsAppend(Frames(init), FrameOf(run[|run| - 1].txid, BufferOf(run)));
    }
  }

  /** The digested stream is the best block hash followed by one frame per
      maximal run of equal txids, `nTransactions` counts those runs, and the
      stream decodes back to exactly that hash and those frames. */
  lemma DigestStream(cursor: seq<Option<Record>>, bestBlock: Hash, bestHeight: int, diskSize: nat)
    requires AllReadable(cursor)
    ensures var st := UtxoStatsOf(cursor, bestBlock, bestHeight, diskSize).value;
            var gs := Frames(Runs(Values(cursor)));
            && st.serialized == EncodeStream(bestBlock, gs)
            && st.nTransactions == |Runs(Values(cursor))|
            && DecodeStream(st.serialized) == Some((bestBlock, gs))
  {
    var gs := Frames(Runs(Values(cursor)));
    FlushRunsStream(Digest([HashTok(bestBlock)], 0, 0, 0), Runs(Values(cursor)));
    StreamRoundTrip(bestBlock, gs);
  }

  /** Flushing only appends to the stream. */
  lemma {:induction false} FlushRunsExtends(d: Digest, runs: seq<seq<Record>>)
    requires forall k :: 0 <= k < |runs| ==> |runs[k]| > 0
    ensures |FlushRuns(d, runs).ss| >= |d.ss| && FlushRuns(d, runs).ss[..|d.ss|] == d.ss
    decreases |runs|
  {
    if |runs| > 0 {
      FlushRunsExtends(d, runs[..|runs| - 1]);
    }
  }

  /** The runs of `recs` that are closed: all but the last one, which is still
      in the buffer. */
  function Closed(recs: seq<Record>): (rs: seq<seq<Record>>)
    ensures forall k :: 0 <= k < |rs| ==> |rs[k]| > 0
  {
    var rs := Runs(recs);
    if |rs| == 0 then [] else rs[..|rs| - 1]
  }

  /** The buffer after reading `recs`: the last run's outputs. */
  function Pending(recs: seq<Record>): (b: Outputs)
    ensures KeysSorted(b)
    ensures |b| > 0 <==> |recs| > 0
  {
    var rs := Runs(recs);
    if |rs| == 0 then [] else BufferOf(rs[|rs| - 1])
  }

  /** How the buffer evolves over one record. */
  lemma PendingStep(seen: seq<Record>, rec: Record)
    ensures Pending(seen + [rec]) ==
      if |seen| > 0 && seen[|seen| - 1].txid != rec.txid then Put([], rec.n, rec.coin)
      else Put(Pending(seen), rec.n, rec.coin)
  {
    RunsSnoc(seen, rec);
    var rs: seq<seq<Record>> := Runs(seen);
    assert [rec][..0] == [];
    assert BufferOf([rec]) == Put([], rec.n, rec.coin);
    if |seen| > 0 && seen[|seen| - 1].txid == rec.txid {
      var last := rs[|rs| - 1];
      assert (last + [rec])[..|last|] == last;
      assert BufferOf(last + [rec]) == Put(BufferOf(last), rec.n, rec.coin);
    }
  }

  lemma ScanStep(d0: Digest, seen: seq<Record>, rec: Record)
    ensures if |seen| > 0 && seen[|seen| - 1].txid != rec.txid then
              FlushRuns(d0, Closed(seen + [rec])) == Applied(FlushRuns(d0, Closed(seen)), seen[|seen| - 1].txid, Pending(seen))
              && Pending(seen + [rec]) == Put([], rec.n, rec.coin)
            else
              FlushRuns(d0, Closed(seen + [rec])) == FlushRuns(d0, Closed(seen))
              && Pending(seen + [rec]) == Put(Pending(seen), rec.n, rec.coin)
  {
    PendingStep(seen, rec);
    RunsSnoc(seen, rec);
    var rs: seq<seq<Record>> := Runs(seen);
    if |seen| > 0 {
      assert rs[..|rs| - 1] + [rs[|rs| - 1]] == rs;
    }
  }


  /** Flushing the pending buffer at the end completes the digest. */
  lemma ScanFinish(d0: Digest, recs: seq<Record>)
    requires |recs| > 0
    ensures FlushRuns(d0, Runs(recs)) == Applied(FlushRuns(d0, Closed(recs)), recs[|recs| - 1].txid, Pending(recs))
  {
    var rs: seq<seq<Record>> := Runs(recs);
    assert rs[..|rs| - 1] + [rs[|rs| - 1]] == rs;
  }

  /** The body of the cursor loop for one readable record: flush the buffer
      when the txid changes, then store the coin under its output index. */
  method ReadRecord(d0: Digest, d: Digest, prevkey: Hash, outputs: Outputs, rec: Record, ghost seen: seq<Record>)
    returns (d': Digest, outputs': Outputs)
    requires outputs == Pending(seen) && d == FlushRuns(d0, Closed(seen))
    requires |seen| > 0 ==> prevkey == seen[|seen| - 1].txid
    ensures outputs' == Pending(seen + [rec]) && d' == FlushRuns(d0, Closed(seen + [rec]))
  {
    ScanStep(d0, seen, rec);
    d', outputs' := d, outputs;
    if outputs' != [] && rec.txid != prevkey {
      d' := ApplyStats(d', prevkey, outputs');
      outputs' := [];
    }
    outputs' := Put(outputs', rec.n, rec.coin);
  }

  /** After the loop: flush the buffer if it holds a group. */
  method FlushPending(d0: Digest, d: Digest, prevkey: Hash, outputs: Outputs, ghost seen: seq<Record>)
    returns (d': Digest)
    requires outputs == Pending(seen) && d == FlushRuns(d0, Closed(seen))
    requires |seen| > 0 ==> prevkey == seen[|seen| - 1].txid
    ensures d' == FlushRuns(d0, Runs(seen))
  {
    d' := d;
    if outputs != [] {
      ScanFinish(d0, seen);
      d' := ApplyStats(d', prevkey, outputs);
    }
  }

  lemma ReadablePrefix(cursor: seq<Option<Record>>, i: nat)
    requires i < |cursor| && AllReadable(cursor[..i]) && cursor[i].Some?
    ensures AllReadable(cursor[..i + 1])
    ensures Values(cursor[..i + 1]) == Values(cursor[..i]) + [cursor[i].value]
  {
    assert cursor[..i + 1][..i] == cursor[..i];
  }

  /** `bestHeight` is the height the block index records for the best block;
      `diskSize` is the store's own estimate. Both come from outside. */
  method GetUTXOStats(cursor: seq<Option<Record>>, bestBlock: Hash, bestHeight: int, diskSize: nat)
    returns (r: Option<CoinsStats>)
    ensures r == UtxoStatsOf(cursor, bestBlock, bestHeight, diskSize)
  {
    var d0 := Digest([HashTok(bestBlock)], 0, 0, 0);
    var d := d0;
    var prevkey: Hash := 0;
    var outputs: Outputs := [];
    ghost var seen: seq<Record> := [];
    var i := 0;
    while i < |cursor|
      invariant 0 <= i <= |cursor|
      invariant AllReadable(cursor[..i]) && seen == Values(cursor[..i])
      invariant outputs == Pending(seen)
      invariant d == FlushRuns(d0, Closed(seen))
      invariant i > 0 ==> prevkey == seen[i - 1].txid
    {
      if cursor[i].None? {
        assert !AllReadable(cursor);
        return None;
      }
      var rec := cursor[i].value;
      d, outputs := ReadRecord(d0, d, prevkey, outputs, rec, seen);
      prevkey := rec.txid;
      ReadablePrefix(cursor, i);
      seen := seen + [rec];
      i := i + 1;
    }
    assert cursor[..i] == cursor;
    d := FlushPending(d0, d, prevkey, outputs, seen);
    r := Some(CoinsStats(bestHeight, bestBlock, d.nTransactions, d.nTransactionOutputs, d.nTotalAmount, d.ss, diskSize));
  }
}
