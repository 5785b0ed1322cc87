/**
  `getchaintips`: the tips of the block tree are the block-index entries that
  are no entry's `pprev`, plus the active tip; they are kept in a `std::set`
  ordered by `CompareBlocksByHeight`, and each is reported with its branch
  length (its height minus the height of its fork point with the active
  chain) and a status taken from the first matching test of an if/else chain.

  The `CBlockIndex` pointers become identifiers (`Id`), which also take over
  the pointer comparison that breaks ties between blocks of equal height.
*/
module ChainTips {
  import opened Wrappers
  import opened ChainTypes

  // Block status bits (`enum BlockStatus` of chain.h).
  const BLOCK_VALID_TREE: bv32 := 2
  const BLOCK_VALID_SCRIPTS: bv32 := 5
  const BLOCK_VALID_MASK: bv32 := 7
  /** `BLOCK_FAILED_VALID | BLOCK_FAILED_CHILD` (32 | 64). */
  const BLOCK_FAILED_MASK: bv32 := 96

  /** The fields of a `CBlockIndex` that `getchaintips` reads. */
  datatype BlockIndex = BlockIndex(hash: Hash, pprev: Option<Id>, nHeight: nat, nStatus: bv32, nChainTx: nat)

  /** `mapBlockIndex`, keyed by block identity. */
  type Forest = map<Id, BlockIndex>

  /** `CBlockIndex::IsValid(nUpTo)`: not failed, and validated up to `nUpTo`. */
  predicate IsValid(b: BlockIndex, nUpTo: bv32) {
    b.nStatus & BLOCK_FAILED_MASK == 0 && b.nStatus & BLOCK_VALID_MASK >= nUpTo
  }

  ghost predicate ParentOk(index: Forest, id: Id)
    requires id in index
  {
    match index[id].pprev
    case None => index[id].nHeight == 0
    case Some(p) => p in index && index[p].nHeight + 1 == index[id].nHeight
  }

  /** What the block index guarantees: every parent is indexed one height
      lower, the only parentless block is the genesis block, and `chain` (the
      active chain, `chain[h]` being the block at height `h`) is a path from
      the genesis block. */
  ghost predicate WellFormed(index: Forest, chain: seq<Id>) {
    && |chain| > 0
    && (forall id :: id in index ==> ParentOk(index, id))
    && (forall h :: 0 <= h < |chain| ==> chain[h] in index && index[chain[h]].nHeight == h)
    && (forall h :: 0 < h < |chain| ==> index[chain[h]].pprev == Some(chain[h - 1]))
    && (forall id :: id in index && index[id].nHeight == 0 ==> id == chain[0])
  }

  /** `chainActive.Tip()`. */
  function Tip(chain: seq<Id>): Id
    requires |chain| > 0
  {
    chain[|chain| - 1]
  }

  /** `chainActive.Contains(block)`: the active block at the block's height is
      the block itself. */
  predicate Contains(index: Forest, chain: seq<Id>, id: Id)
    requires id in index
  {
    index[id].nHeight < |chain| && chain[index[id].nHeight] == id
  }

  /** The ancestor of `id` at height `h`, reached by following `pprev`. */
  ghost function Ancestor(index: Forest, chain: seq<Id>, id: Id, h: nat): (a: Id)
    requires WellFormed(index, chain) && id in index && h <= index[id].nHeight
    ensures a in index && index[a].nHeight == h
    decreases index[id].nHeight
  {
    if index[id].nHeight == h then id
    else
      assert ParentOk(index, id);
      Ancestor(index, chain, index[id].pprev.value, h)
  }

  /** `chainActive.FindFork(block)`: the highest ancestor of the block (the
      block itself included) that lies on the active chain. */
  function FindFork(index: Forest, chain: seq<Id>, id: Id): (f: Id)
    requires WellFormed(index, chain) && id in index
    ensures f in index && Contains(index, chain, f)
    ensures index[f].nHeight <= index[id].nHeight
    ensures f == Ancestor(index, chain, id, index[f].nHeight)
    ensures forall h :: index[f].nHeight < h <= index[id].nHeight ==> !Contains(index, chain, Ancestor(index, chain, id, h))
    decreases index[id].nHeight
  {
    if Contains(index, chain, id) then id
    else
      assert ParentOk(index, id);
      FindFork(index, chain, index[id].pprev.value)
  }

  /** `CompareBlocksByHeight`: greater height first; equal heights are ordered
      by identity, so two different blocks never compare equal. */
  predicate Before(index: Forest, a: Id, b: Id)
    requires a in index && b in index
  {
    if index[a].nHeight != index[b].nHeight then index[a].nHeight > index[b].nHeight else a < b
  }

  /** The comparator is a strict total order on the indexed blocks. */
  lemma BeforeIsStrictTotalOrder(index: Forest, a: Id, b: Id, c: Id)
    requires a in index && b in index && c in index
    ensures !Before(index, a, a)
    ensures Before(index, a, b) ==> !Before(index, b, a)
    ensures Before(index, a, b) && Before(index, b, c) ==> Before(index, a, c)
    ensures a != b ==> Before(index, a, b) || Before(index, b, a)
  {
  }

  // ---------------------------------------------------------------------
  // The ordered set of tips: a std::set with CompareBlocksByHeight
  // ---------------------------------------------------------------------

  /** A sequence in strictly ascending comparator order: the iteration order
      of the std::set, without duplicates. */
  ghost predicate Ordered(index: Forest, s: seq<Id>) {
    && (forall i :: 0 <= i < |s| ==> s[i] in index)
    && (forall i, j :: 0 <= i < j < |s| ==> Before(index, s[i], s[j]))
  }

  /** `setTips.insert(x)`. */
  function Insert(index: Forest, s: seq<Id>, x: Id): (r: seq<Id>)
    requires x in index && Ordered(index, s)
    ensures Ordered(index, r)
    ensures forall y :: y in r <==> y in s || y == x
  {
    if |s| == 0 then [x]
    else if s[0] == x then s
    else if Before(index, x, s[0]) then [x] + s
    else
      var rest := Insert(index, s[1..], x);
      forall i | 0 <= i < |rest| ensures Before(index, s[0], rest[i]) {
        if rest[i] != x {
          assert rest[i] in s[1..];
          var j :| 0 <= j < |s[1..]| && s[1..][j] == rest[i];
          assert s[j + 1] == rest[i];
        }
      }
      [s[0]] + rest
  }

  /** `setTips.erase(x)`. */
  function Erase(index: Forest, s: seq<Id>, x: Id): (r: seq<Id>)
    requires Ordered(index, s)
    ensures Ordered(index, r)
    ensures forall y :: y in r <==> y in s && y != x
  {
    if |s| == 0 then []
    else if s[0] == x then
      assert forall i :: 0 < i < |s| ==> s[i] != x by {
        forall i | 0 < i < |s| ensures s[i] != x { assert Before(index, s[0], s[i]); }
      }
      s[1..]
    else
      var rest := Erase(index, s[1..], x);
      forall i | 0 <= i < |rest| ensures Before(index, s[0], rest[i]) {
        assert rest[i] in s[1..];
        var j :| 0 <= j < |s[1..]| && s[1..][j] == rest[i];
        assert s[j + 1] == rest[i];
      }
      [s[0]] + rest
  }

  /** A block that is no block's `pprev`. */
  ghost predicate IsLeaf(index: Forest, id: Id) {
    forall k :: k in index ==> index[k].pprev != Some(id)
  }

  /** The blocks `getchaintips` reports: every leaf, and the active tip. */
  ghost function TipSet(index: Forest, chain: seq<Id>): set<Id>
    requires |chain| > 0
  {
    (set id | id in index && IsLeaf(index, id)) + {Tip(chain)}
  }

  // ---------------------------------------------------------------------
  // Status and branch length
  // ---------------------------------------------------------------------

  datatype TipStatus = Active | Invalid | HeadersOnly | ValidFork | ValidHeaders | Unknown

  /** One entry of the result. */
  datatype ChainTip = ChainTip(id: Id, height: nat, hash: Hash, branchLen: int, status: TipStatus)

  function StatusOf(index: Forest, chain: seq<Id>, id: Id): TipStatus
    requires id in index
  {
    var b := index[id];
    if Contains(index, chain, id) then Active
    else if b.nStatus & BLOCK_FAILED_MASK != 0 then Invalid
    else if b.nChainTx == 0 then HeadersOnly
    else if IsValid(b, BLOCK_VALID_SCRIPTS) then ValidFork
    else if IsValid(b, BLOCK_VALID_TREE) then ValidHeaders
    else Unknown
  }

  function Describe(index: Forest, chain: seq<Id>, id: Id): ChainTip
    requires WellFormed(index, chain) && id in index
  {
    var b := index[id];
    ChainTip(id, b.nHeight, b.hash, b.nHeight - index[FindFork(index, chain, id)].nHeight, StatusOf(index, chain, id))
  }

  /** An entry describes the block it was made for. */
  lemma DescribeId(index: Forest, chain: seq<Id>, id: Id)
    requires WellFormed(index, chain) && id in index
    ensures Describe(index, chain, id).id == id
  {
  }

  /** The branch length is never negative, and it is zero exactly for a block
      on the active chain, which is exactly when the status is `Active`. */
  lemma BranchLenZeroIffActive(index: Forest, chain: seq<Id>, id: Id)
    requires WellFormed(index, chain) && id in index
    ensures Describe(index, chain, id).branchLen >= 0
    ensures Describe(index, chain, id).branchLen == 0 <==> Contains(index, chain, id)
    ensures Describe(index, chain, id).branchLen == 0 <==> Describe(index, chain, id).status == Active
  {
    var f := FindFork(index, chain, id);
    if index[f].nHeight == index[id].nHeight {
      assert Ancestor(index, chain, id, index[id].nHeight) == id;
    }
  }

  /** A leaf on the active chain can only be its tip. */
  lemma ActiveLeafIsTip(index: Forest, chain: seq<Id>, id: Id)
    requires WellFormed(index, chain) && id in index && IsLeaf(index, id)
    ensures Contains(index, chain, id) <==> id == Tip(chain)
  {
    LeafOffChain(index, chain, id);
  }

  /** The step of `ActiveLeafIsTip`, from the two facts of `WellFormed` it
      needs: a block of the active chain below the tip has a child there. */
  lemma LeafOffChain(index: Forest, chain: seq<Id>, id: Id)
    requires id in index && IsLeaf(index, id) && |chain| > 0
    requires Tip(chain) in index && index[Tip(chain)].nHeight == |chain| - 1
    requires forall h :: 0 < h < |chain| ==> chain[h] in index && index[chain[h]].pprev == Some(chain[h - 1])
    ensures Contains(index, chain, id) <==> id == Tip(chain)
  {
    var h := index[id].nHeight;
    if h + 1 < |chain| {
      assert chain[h + 1] in index && index[chain[h + 1]].pprev == Some(chain[h]);
    }
  }

  /** Among the reported blocks, `Active` is the status of the active tip
      and of no other. */
  lemma OnlyTheTipIsActive(index: Forest, chain: seq<Id>, id: Id)
    requires WellFormed(index, chain) && id in TipSet(index, chain)
    ensures id in index
    ensures StatusOf(index, chain, id) == Active <==> id == Tip(chain)
  {
    var n := |chain| - 1;
    assert chain[n] in index && index[chain[n]].nHeight == n;
    if id != Tip(chain) {
      assert id in index && IsLeaf(index, id);
      ActiveLeafIsTip(index, chain, id);
    }
    StatusMeaning(index, chain, id);
  }

  /** What each status says about the block: a status below `Active` means
      the block is off the active chain, `Invalid` that a failure bit is set,
      and the later ones that none is; `ValidFork` (scripts validated)
      implies tree validity as well, and `Unknown` that not even the tree
      level was reached. */
  lemma StatusMeaning(index: Forest, chain: seq<Id>, id: Id)
    requires id in index
    ensures var st := StatusOf(index, chain, id);
      var b := index[id];
      && (st == Active <==> Contains(index, chain, id))
      && (st == Invalid <==> !Contains(index, chain, id) && b.nStatus & BLOCK_FAILED_MASK != 0)
      && (st == HeadersOnly ==> b.nChainTx == 0 && b.nStatus & BLOCK_FAILED_MASK == 0)
      && (st == ValidFork ==> IsValid(b, BLOCK_VALID_SCRIPTS) && IsValid(b, BLOCK_VALID_TREE) && b.nChainTx > 0)
      && (st == ValidHeaders ==> IsValid(b, BLOCK_VALID_TREE) && !IsValid(b, BLOCK_VALID_SCRIPTS) && b.nChainTx > 0)
      && (st == Unknown ==> !IsValid(b, BLOCK_VALID_TREE) && b.nStatus & BLOCK_FAILED_MASK == 0 && b.nChainTx > 0)
  {
  }

  /** A root R with the active chain R, A, B, C and a fork A, D: the tips are
      C, active with branch length 0, and D, not active, with branch length
      `D.height - A.height`. */
  lemma ForkExample(flags: bv32, nChainTx: nat)
    ensures var index: Forest := map[
        0 := BlockIndex(100, None, 0, BLOCK_VALID_SCRIPTS, 1),
        1 := BlockIndex(101, Some(0), 1, BLOCK_VALID_SCRIPTS, 2),
        2 := BlockIndex(102, Some(1), 2, BLOCK_VALID_SCRIPTS, 3),
        3 := BlockIndex(103, Some(2), 3, BLOCK_VALID_SCRIPTS, 4),
        4 := BlockIndex(104, Some(1), 2, flags, nChainTx)];
      var chain := [0, 1, 2, 3];
      && WellFormed(index, chain)
      && TipSet(index, chain) == {3, 4}
      && Describe(index, chain, 3) == ChainTip(3, 3, 103, 0, Active)
      && Describe(index, chain, 4).branchLen == 1
      && Describe(index, chain, 4).status != Active
  {
    var index: Forest := map[
        0 := BlockIndex(100, None, 0, BLOCK_VALID_SCRIPTS, 1),
        1 := BlockIndex(101, Some(0), 1, BLOCK_VALID_SCRIPTS, 2),
        2 := BlockIndex(102, Some(1), 2, BLOCK_VALID_SCRIPTS, 3),
        3 := BlockIndex(103, Some(2), 3, BLOCK_VALID_SCRIPTS, 4),
        4 := BlockIndex(104, Some(1), 2, flags, nChainTx)];
    var chain := [0, 1, 2, 3];
    ForkExampleShape(index, chain);
    assert FindFork(index, chain, 4) == 1;
  }

  /** The index of `ForkExample` is well formed and its leaves are C and D. */
  lemma ForkExampleShape(index: Forest, chain: seq<Id>)
    requires ForkShaped(index) && chain == [0, 1, 2, 3]
    ensures WellFormed(index, chain) && TipSet(index, chain) == {3, 4}
  {
    forall id | id in index ensures ParentOk(index, id) {
      assert id == 0 || id == 1 || id == 2 || id == 3 || id == 4;
    }
    ForkLeaves(index);
  }

  /** R = 0, A = 1, B = 2, C = 3 on one branch, and D = 4 on A. */
  predicate ForkShaped(index: Forest) {
    && index.Keys == {0, 1, 2, 3, 4}
    && index[0].pprev == None && index[0].nHeight == 0
    && index[1].pprev == Some(0) && index[1].nHeight == 1
    && index[2].pprev == Some(1) && index[2].nHeight == 2
    && index[3].pprev == Some(2) && index[3].nHeight == 3
    && index[4].pprev == Some(1) && index[4].nHeight == 2
  }

  /** The leaves of the `ForkExample` index are C and D. */
  lemma ForkLeaves(index: Forest)
    requires ForkShaped(index)
    ensures (set id | id in index && IsLeaf(index, id)) == {3, 4}
  {
    assert !IsLeaf(index, 0) by { assert index[1].pprev == Some(0); }
    assert !IsLeaf(index, 1) by { assert index[2].pprev == Some(1); }
    assert !IsLeaf(index, 2) by { assert index[3].pprev == Some(2); }
    assert IsLeaf(index, 3) && IsLeaf(index, 4);
  }

  // ---------------------------------------------------------------------
  // getchaintips
  // ---------------------------------------------------------------------

  /** The first loop: every known block goes into the set. */
  method AllBlocks(index: Forest) returns (setTips: seq<Id>)
    ensures Ordered(index, setTips)
    ensures forall y :: y in setTips <==> y in index
  {
    setTips := [];
    var todo := index.Keys;
    while todo != {}
      invariant todo <= index.Keys
      invariant Ordered(index, setTips)
      invariant forall y :: y in setTips <==> y in index && y !in todo
      decreases todo
    {
      var k :| k in todo;
      setTips := Insert(index, setTips, k);
      todo := todo - {k};
    }
  }

  /** The second loop: every block that is some block's `pprev` is erased. */
  method EraseParents(index: Forest, setTips0: seq<Id>) returns (setTips: seq<Id>)
    requires Ordered(index, setTips0)
    ensures Ordered(index, setTips)
    ensures forall y :: y in setTips <==> y in setTips0 && IsLeaf(index, y)
  {
    setTips := setTips0;
    var todo := index.Keys;
    while todo != {}
      invariant todo <= index.Keys
      invariant Ordered(index, setTips)
      invariant forall y :: y in setTips <==>
        y in setTips0 && forall k :: k in index && k !in todo ==> index[k].pprev != Some(y)
      decreases todo
    {
      var k :| k in todo;
      if index[k].pprev.Some? {
        setTips := Erase(index, setTips, index[k].pprev.value);
      }
      todo := todo - {k};
    }
  }

  /** The output loop: one entry per tip, in set order. */
  method DescribeAll(index: Forest, chain: seq<Id>, setTips: seq<Id>) returns (res: seq<ChainTip>)
    requires WellFormed(index, chain) && forall i :: 0 <= i < |setTips| ==> setTips[i] in index
    ensures |res| == |setTips|
    ensures forall i :: 0 <= i < |res| ==> res[i] == Describe(index, chain, setTips[i])
  {
    res := [];
    var i := 0;
    while i < |setTips|
      invariant 0 <= i <= |setTips|
      invariant |res| == i
      invariant forall j :: 0 <= j < i ==> res[j] == Describe(index, chain, setTips[j])
    {
      res := res + [Describe(index, chain, setTips[i])];
      i := i + 1;
    }
  }

  method GetChainTips(index: Forest, chain: seq<Id>) returns (res: seq<ChainTip>)
    requires WellFormed(index, chain)
    ensures forall t :: t in TipSet(index, chain) <==> exists i :: 0 <= i < |res| && res[i].id == t
    ensures forall i :: 0 <= i < |res| ==> res[i].id in index && res[i] == Describe(index, chain, res[i].id)
    ensures forall i, j :: 0 <= i < j < |res| ==> Before(index, res[i].id, res[j].id)
    ensures forall i, j :: 0 <= i < j < |res| ==> res[i].id != res[j].id
  {
    var setTips := AllBlocks(index);
    setTips := EraseParents(index, setTips);
    // Always report the currently active tip.
    setTips := Insert(index, setTips, Tip(chain));
    assert forall y :: y in setTips <==> y in TipSet(index, chain);
    res := DescribeAll(index, chain, setTips);
    forall i | 0 <= i < |res| ensures res[i].id == setTips[i] {
      DescribeId(index, chain, setTips[i]);
    }
    forall t | t in TipSet(index, chain) ensures exists i :: 0 <= i < |res| && res[i].id == t {
      assert t in setTips;
      var i :| 0 <= i < |setTips| && setTips[i] == t;
      assert res[i].id == t;
    }
  }
}
