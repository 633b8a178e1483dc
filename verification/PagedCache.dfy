/** The block allocator on values: what each cache operation does to the free list
    and the block tables, and the laws those operations keep. */
module CacheStates {
  import opened Arith

  type SeqId = nat
  type BlockId = nat

  datatype CacheError =
    | OutOfBlocks(needed: nat, free: nat)
    | UnknownSequence(id: SeqId)

  datatype AppendResult = Ok | Err(error: CacheError)

  datatype BlockTable = BlockTable(blocks: seq<BlockId>, numTokens: nat) {
    function Capacity(blockSize: pos): nat { |blocks| * blockSize }

    /** Exactly the blocks its tokens need: what lazy growth promises. */
    predicate Exact(blockSize: pos) { |blocks| == Blocks(numTokens, blockSize) }

    function Slack(blockSize: pos): (slack: nat)
      requires Exact(blockSize)
      ensures slack < blockSize && slack + numTokens == |blocks| * blockSize
    {
      BlocksBounds(numTokens, blockSize);
      Capacity(blockSize) - numTokens
    }
  }

  const EMPTY_TABLE := BlockTable([], 0)

  function Reversed<T>(s: seq<T>): seq<T> {
    if s == [] then [] else Reversed(s[1..]) + [s[0]]
  }

  /** Blocks a table (or, without one, a fresh sequence) needs for `extra` more tokens:
      the difference of two recounts. */
  function Needed(tables: map<SeqId, BlockTable>, blockSize: pos, id: SeqId, extra: nat): nat {
    if id !in tables then Blocks(extra, blockSize)
    else
      BlocksMonotone(tables[id].numTokens, tables[id].numTokens + extra, blockSize);
      Blocks(tables[id].numTokens + extra, blockSize) - Blocks(tables[id].numTokens, blockSize)
  }

  // ---- Ownership ----

  ghost function AnyKey(tables: map<SeqId, BlockTable>): (k: SeqId)
    requires tables != map[]
    ensures k in tables
  {
    assert tables.Keys != {};
    var k :| k in tables;
    k
  }

  /** Every block held by some table, with multiplicity. */
  ghost function Owned(tables: map<SeqId, BlockTable>): multiset<BlockId>
    decreases |tables|
  {
    if tables == map[] then multiset{}
    else
      var k := AnyKey(tables);
      multiset(tables[k].blocks) + Owned(tables - {k})
  }

  lemma OwnedPick(tables: map<SeqId, BlockTable>)
    requires tables != map[]
    ensures var j := AnyKey(tables); Owned(tables) == multiset(tables[j].blocks) + Owned(tables - {j})
  {
  }

  lemma RemoveTwice(tables: map<SeqId, BlockTable>, j: SeqId, k: SeqId)
    ensures tables - {j} - {k} == tables - {k} - {j}
  {
  }

  lemma BlocksShuffle(x: multiset<BlockId>, y: multiset<BlockId>, z: multiset<BlockId>)
    ensures x + (y + z) == y + (x + z)
  {
  }

  lemma {:induction false} OwnedRemove(tables: map<SeqId, BlockTable>, k: SeqId)
    requires k in tables
    ensures Owned(tables) == multiset(tables[k].blocks) + Owned(tables - {k})
    decreases |tables|
  {
    var j := AnyKey(tables);
    OwnedPick(tables);
    if j != k {
      OwnedRemove(tables - {j}, k);
      OwnedRemove(tables - {k}, j);
      RemoveTwice(tables, j, k);
      BlocksShuffle(multiset(tables[j].blocks), multiset(tables[k].blocks), Owned(tables - {j} - {k}));
    }
  }

  lemma OwnedUpdate(tables: map<SeqId, BlockTable>, k: SeqId, t: BlockTable)
    ensures Owned(tables[k := t]) == multiset(t.blocks) + Owned(tables - {k})
  {
    OwnedRemove(tables[k := t], k);
    assert tables[k := t] - {k} == tables - {k};
  }

  lemma RemoveMissing(tables: map<SeqId, BlockTable>, k: SeqId)
    requires k !in tables
    ensures tables - {k} == tables
  {
  }

  function AllBlocks(n: nat): (blocks: seq<BlockId>)
    ensures |blocks| == n
  {
    if n == 0 then [] else AllBlocks(n - 1) + [n - 1]
  }

  lemma {:induction false} AllBlocksOnce(n: nat, b: BlockId)
    ensures multiset(AllBlocks(n))[b] == if b < n then 1 else 0
  {
    if n > 0 {
      AllBlocksOnce(n - 1, b);
    }
  }

  lemma {:induction false} AllBlocksInOrder(n: nat)
    ensures forall i :: 0 <= i < n ==> AllBlocks(n)[i] == i
  {
    if n > 0 {
      AllBlocksInOrder(n - 1);
    }
  }

  lemma {:induction false} ReversedAt<T>(s: seq<T>)
    ensures |Reversed(s)| == |s| && forall k :: 0 <= k < |s| ==> Reversed(s)[k] == s[|s| - 1 - k]
  {
    if s != [] {
      ReversedAt(s[1..]);
    }
  }

  lemma ReversedSame<T>(s: seq<T>)
    ensures |Reversed(s)| == |s| && multiset(Reversed(s)) == multiset(s)
  {
    if s != [] {
      ReversedSame(s[1..]);
      assert s == [s[0]] + s[1..];
    }
  }

  lemma {:induction false} ReversedConcat<T>(s: seq<T>, t: seq<T>)
    ensures Reversed(s + t) == Reversed(t) + Reversed(s)
  {
    if s == [] {
      assert s + t == t;
    } else {
      assert (s + t)[1..] == s[1..] + t;
      ReversedConcat(s[1..], t);
    }
  }

  // ---- The operations ----

  datatype Cache = Cache(
    blockSize: pos,
    numBlocks: nat,
    freeList: seq<BlockId>,
    tables: map<SeqId, BlockTable>,
    peakBlocks: nat)
  {
    ghost predicate Valid() {
      && (forall k :: k in tables ==> tables[k].Exact(blockSize))
      && multiset(freeList) + Owned(tables) == multiset(AllBlocks(numBlocks))
      && |freeList| <= numBlocks
      && numBlocks - |freeList| <= peakBlocks <= numBlocks
    }

    function Used(): nat
      requires |freeList| <= numBlocks
    {
      numBlocks - |freeList|
    }

    function Admit(id: SeqId): Cache {
      if id in tables then this else this.(tables := tables[id := EMPTY_TABLE])
    }

    predicate CanAppend(id: SeqId, count: nat) {
      id in tables && Needed(tables, blockSize, id, count) <= |freeList|
    }

    /** A successful append moves the top of the free stack, top first, to the end of the table. */
    function Append(id: SeqId, count: nat): Cache
      requires CanAppend(id, count) && |freeList| <= numBlocks
    {
      var rest := |freeList| - Needed(tables, blockSize, id, count);
      this.(freeList := freeList[..rest],
            tables := tables[id := BlockTable(tables[id].blocks + Reversed(freeList[rest..]),
                                              tables[id].numTokens + count)],
            peakBlocks := Max(peakBlocks, numBlocks - rest))
    }

    function Free(id: SeqId): Cache {
      if id in tables then
        this.(freeList := freeList + tables[id].blocks, tables := tables - {id})
      else this
    }
  }

  function Fresh(numBlocks: nat, blockSize: pos): Cache {
    Cache(blockSize, numBlocks, AllBlocks(numBlocks), map[], 0)
  }

  // ---- Conservation: every operation keeps the partition of the blocks ----

  lemma FreshValid(numBlocks: nat, blockSize: pos)
    ensures Fresh(numBlocks, blockSize).Valid()
  {
  }

  lemma AdmitKeepsValid(c: Cache, id: SeqId)
    requires c.Valid()
    ensures c.Admit(id).Valid()
  {
    if id !in c.tables {
      OwnedUpdate(c.tables, id, EMPTY_TABLE);
      RemoveMissing(c.tables, id);
    }
  }

  /** Moving the top of the free stack into a table moves ownership, block for block. */
  lemma TakeMovesOwnership(freeList: seq<BlockId>, tables: map<SeqId, BlockTable>, id: SeqId, rest: nat, numTokens: nat)
    requires id in tables && rest <= |freeList|
    ensures var t := BlockTable(tables[id].blocks + Reversed(freeList[rest..]), numTokens);
      && |t.blocks| == |tables[id].blocks| + |freeList| - rest
      && multiset(freeList[..rest]) + Owned(tables[id := t]) == multiset(freeList) + Owned(tables)
  {
    var t := BlockTable(tables[id].blocks + Reversed(freeList[rest..]), numTokens);
    var kept, moved := multiset(freeList[..rest]), multiset(freeList[rest..]);
    ReversedSame(freeList[rest..]);
    OwnedRemove(tables, id);
    OwnedUpdate(tables, id, t);
    MultisetSplit(freeList, rest);
    MultisetConcat(tables[id].blocks, Reversed(freeList[rest..]));
    BlocksRegroup(kept, moved, multiset(tables[id].blocks), Owned(tables - {id}));
  }

  lemma MultisetSplit(s: seq<BlockId>, i: nat)
    requires i <= |s|
    ensures multiset(s) == multiset(s[..i]) + multiset(s[i..])
  {
    assert s == s[..i] + s[i..];
  }

  lemma MultisetConcat(s: seq<BlockId>, t: seq<BlockId>)
    ensures multiset(s + t) == multiset(s) + multiset(t)
  {
  }

  lemma BlocksRegroup(a: multiset<BlockId>, b: multiset<BlockId>, c: multiset<BlockId>, d: multiset<BlockId>)
    ensures a + ((c + b) + d) == (a + b) + (c + d)
  {
  }

  /** The parts of the cache an append leaves, named. */
  lemma AppendShape(c: Cache, id: SeqId, count: nat, rest: nat)
    requires c.CanAppend(id, count) && |c.freeList| <= c.numBlocks
    requires rest == |c.freeList| - Needed(c.tables, c.blockSize, id, count)
    ensures var t := BlockTable(c.tables[id].blocks + Reversed(c.freeList[rest..]), c.tables[id].numTokens + count);
      c.Append(id, count) == Cache(c.blockSize, c.numBlocks, c.freeList[..rest], c.tables[id := t], Max(c.peakBlocks, c.numBlocks - rest))
  {
  }

  /** An append of `count` tokens, by what it does to the state: the table keeps its blocks and
      gets the top of the free stack, top first, to exactly the ceiling of its new length;
      nothing else moves, and the peak follows the use. */
  ghost predicate AppendedTo(c: Cache, d: Cache, id: SeqId, count: nat) {
    && id in c.tables && |d.freeList| <= |c.freeList| <= c.numBlocks
    && var held, taken, n := c.tables[id].blocks, |c.freeList| - |d.freeList|, c.tables[id].numTokens + count;
    && d.freeList == c.freeList[..|d.freeList|]
    && d.tables.Keys == c.tables.Keys && (forall k :: k in c.tables && k != id ==> d.tables[k] == c.tables[k])
    && d.tables[id].numTokens == n
    && |d.tables[id].blocks| == |held| + taken == DivCeil(n, c.blockSize)
    && d.tables[id].blocks[..|held|] == held
    && (forall i :: |held| <= i < |held| + taken ==> d.tables[id].blocks[i] == c.freeList[|c.freeList| - 1 - (i - |held|)])
    && d.peakBlocks == (if c.peakBlocks < c.numBlocks - |d.freeList| then c.numBlocks - |d.freeList| else c.peakBlocks)
    && d.blockSize == c.blockSize && d.numBlocks == c.numBlocks
  }

  lemma AppendGrows(c: Cache, id: SeqId, count: nat)
    requires c.Valid() && c.CanAppend(id, count)
    ensures AppendedTo(c, c.Append(id, count), id, count)
  {
    var rest := |c.freeList| - Needed(c.tables, c.blockSize, id, count);
    AppendShape(c, id, count, rest);
    AppendExact(c, id, count);
    TopOfStack(c.tables[id].blocks, c.freeList, rest);
    ExactIsCeiling(c.Append(id, count).tables[id], c.blockSize);
  }

  /** When an append succeeds: the table's blocks and the free ones reach the ceiling of the
      length there will be. */
  lemma CanAppendMeans(c: Cache, id: SeqId, count: nat)
    requires id in c.tables && c.tables[id].Exact(c.blockSize)
    ensures c.CanAppend(id, count)
       <==> DivCeil(c.tables[id].numTokens + count, c.blockSize) <= |c.tables[id].blocks| + |c.freeList|
  {
    DivCeilCountsBlocks(c.tables[id].numTokens + count, c.blockSize);
  }

  lemma ExactIsCeiling(t: BlockTable, blockSize: pos)
    requires t.Exact(blockSize)
    ensures |t.blocks| == DivCeil(t.numTokens, blockSize)
  {
    DivCeilCountsBlocks(t.numTokens, blockSize);
  }

  lemma TopOfStack(held: seq<BlockId>, freeList: seq<BlockId>, rest: nat)
    requires rest <= |freeList|
    ensures var blocks := held + Reversed(freeList[rest..]);
      && |blocks| == |held| + |freeList| - rest && blocks[..|held|] == held
      && (forall i :: |held| <= i < |blocks| ==> blocks[i] == freeList[|freeList| - 1 - (i - |held|)])
  {
    ReversedAt(freeList[rest..]);
  }

  /** The blocks needed are the fewest that hold the tokens there will be. */
  lemma NeededIsLeast(tables: map<SeqId, BlockTable>, blockSize: pos, id: SeqId, extra: nat)
    requires id in tables ==> tables[id].Exact(blockSize)
    ensures var held, stored := if id in tables then |tables[id].blocks| else 0, if id in tables then tables[id].numTokens else 0;
      var needed := Needed(tables, blockSize, id, extra);
      && stored + extra <= (held + needed) * blockSize
      && (needed > 0 ==> (held + needed - 1) * blockSize < stored + extra)
  {
    var stored := if id in tables then tables[id].numTokens else 0;
    var total := Blocks(stored + extra, blockSize);
    BlocksBounds(stored + extra, blockSize);
    if total > 0 {
      Distribute(total - 1, 1, blockSize);
    }
  }

  lemma AppendConserves(c: Cache, id: SeqId, count: nat)
    requires c.CanAppend(id, count) && |c.freeList| <= c.numBlocks
    ensures var d := c.Append(id, count);
      multiset(d.freeList) + Owned(d.tables) == multiset(c.freeList) + Owned(c.tables)
  {
    var rest, n := |c.freeList| - Needed(c.tables, c.blockSize, id, count), c.tables[id].numTokens + count;
    var t := BlockTable(c.tables[id].blocks + Reversed(c.freeList[rest..]), n);
    TakeMovesOwnership(c.freeList, c.tables, id, rest, n);
    AppendShape(c, id, count, rest);
    assert c.Append(id, count).freeList == c.freeList[..rest] && c.Append(id, count).tables == c.tables[id := t];
  }

  lemma AppendExact(c: Cache, id: SeqId, count: nat)
    requires c.CanAppend(id, count) && |c.freeList| <= c.numBlocks && c.tables[id].Exact(c.blockSize)
    ensures c.Append(id, count).tables[id].Exact(c.blockSize)
    ensures |c.Append(id, count).freeList| == |c.freeList| - Needed(c.tables, c.blockSize, id, count)
  {
    var rest := |c.freeList| - Needed(c.tables, c.blockSize, id, count);
    AppendShape(c, id, count, rest);
    ReversedSame(c.freeList[rest..]);
  }

  lemma AppendKeepsValid(c: Cache, id: SeqId, count: nat)
    requires c.Valid() && c.CanAppend(id, count)
    ensures c.Append(id, count).Valid()
  {
    AppendConserves(c, id, count);
    AppendExact(c, id, count);
    var d := c.Append(id, count);
    assert forall k :: k in d.tables && k != id ==> d.tables[k] == c.tables[k];
  }

  lemma FreeKeepsValid(c: Cache, id: SeqId)
    requires c.Valid()
    ensures c.Free(id).Valid()
    ensures id in c.tables ==> |c.Free(id).freeList| == |c.freeList| + Blocks(c.tables[id].numTokens, c.blockSize)
  {
    if id in c.tables {
      OwnedRemove(c.tables, id);
      var d := c.Free(id);
      assert multiset(d.freeList) + Owned(d.tables) == multiset(AllBlocks(c.numBlocks));
      assert |multiset(d.freeList) + Owned(d.tables)| == |d.freeList| + |Owned(d.tables)|;
      assert |multiset(AllBlocks(c.numBlocks))| == c.numBlocks;
    }
  }

  /** The free list is a stack: an append after a free takes back the blocks just freed, the
      last of them first, before any other. */
  lemma FreedBlocksComeBackFirst(c: Cache, id: SeqId, other: SeqId, count: nat)
    requires id in c.tables && other in c.tables && id != other
    requires var d := c.Free(id);
      |d.freeList| <= d.numBlocks && Needed(d.tables, d.blockSize, other, count) <= |c.tables[id].blocks|
    ensures var freed, held, d := c.tables[id].blocks, c.tables[other].blocks, c.Free(id);
      var needed, e := Needed(d.tables, d.blockSize, other, count), d.Append(other, count);
      && |e.tables[other].blocks| == |held| + needed && e.tables[other].blocks[..|held|] == held
      && (forall i :: |held| <= i < |held| + needed ==> e.tables[other].blocks[i] == freed[|freed| - 1 - (i - |held|)])
      && e.freeList == c.freeList + freed[..|freed| - needed]
  {
    var freed, d := c.tables[id].blocks, c.Free(id);
    var rest := |d.freeList| - Needed(d.tables, d.blockSize, other, count);
    AppendShape(d, other, count, rest);
    assert d.freeList == c.freeList + freed;
    TopOfStack(c.tables[other].blocks, d.freeList, rest);
  }

  /** What the multiset equation of `Valid` says block by block: a block exists exactly
      when it is on the free list or in a table, and it is in only one place there. */
  lemma BlockHasOneOwner(c: Cache, b: BlockId)
    requires c.Valid()
    ensures b < c.numBlocks <==> b in c.freeList || exists k :: k in c.tables && b in c.tables[k].blocks
    ensures multiset(c.freeList)[b] <= 1
    ensures forall k :: k in c.tables ==> multiset(c.tables[k].blocks)[b] <= 1
    ensures forall k :: k in c.tables && b in c.tables[k].blocks ==> b !in c.freeList
    ensures forall j, k :: j in c.tables && k in c.tables && b in c.tables[j].blocks && b in c.tables[k].blocks ==> j == k
  {
    AllBlocksOnce(c.numBlocks, b);
    assert multiset(c.freeList)[b] + Owned(c.tables)[b] == multiset(AllBlocks(c.numBlocks))[b];
    forall k | k in c.tables
      ensures Owned(c.tables)[b] == multiset(c.tables[k].blocks)[b] + Owned(c.tables - {k})[b]
      ensures forall j :: j in c.tables && j != k && b in c.tables[j].blocks ==> Owned(c.tables - {k})[b] > 0
    {
      OwnedRemove(c.tables, k);
      forall j | j in c.tables && j != k && b in c.tables[j].blocks
        ensures Owned(c.tables - {k})[b] > 0
      {
        OwnedRemove(c.tables - {k}, j);
        assert b in multiset(c.tables[j].blocks);
      }
    }
    OwnedWitness(c.tables, b);
    assert b in c.freeList <==> multiset(c.freeList)[b] > 0;
    assert forall k :: k in c.tables ==> (b in c.tables[k].blocks <==> multiset(c.tables[k].blocks)[b] > 0);
  }

  lemma {:induction false} OwnedWitness(tables: map<SeqId, BlockTable>, b: BlockId)
    ensures b in Owned(tables) ==> exists k :: k in tables && b in tables[k].blocks
    decreases |tables|
  {
    if b in Owned(tables) {
      var k := AnyKey(tables);
      if b !in tables[k].blocks {
        OwnedWitness(tables - {k}, b);
        var j :| j in tables - {k} && b in (tables - {k})[j].blocks;
        assert j in tables && b in tables[j].blocks;
      }
    }
  }

  // ---- Lazy growth ----

  lemma NeededSplits(n: nat, a: nat, b: nat, blockSize: pos)
    ensures Blocks(n, blockSize) <= Blocks(n + a, blockSize) <= Blocks(n + a + b, blockSize)
  {
    BlocksMonotone(n, n + a, blockSize);
    BlocksMonotone(n + a, n + a + b, blockSize);
  }

  lemma TakesCompose(freeList: seq<BlockId>, r1: nat, r2: nat)
    requires r2 <= r1 <= |freeList|
    ensures freeList[..r1][..r2] == freeList[..r2]
    ensures Reversed(freeList[r1..]) + Reversed(freeList[..r1][r2..]) == Reversed(freeList[r2..])
  {
    assert freeList[r2..] == freeList[..r1][r2..] + freeList[r1..];
    ReversedConcat(freeList[..r1][r2..], freeList[r1..]);
  }

  /** Two appends are one bulk append: the same blocks in the same order, the same free
      stack and the same peak, and the pair succeeds exactly when the bulk append does. */
  lemma AppendsCompose(c: Cache, id: SeqId, a: nat, b: nat)
    requires |c.freeList| <= c.numBlocks
    ensures c.CanAppend(id, a + b) <==> c.CanAppend(id, a) && c.Append(id, a).CanAppend(id, b)
    ensures c.CanAppend(id, a + b) ==> c.Append(id, a).Append(id, b) == c.Append(id, a + b)
  {
    if id in c.tables {
      NeededSplits(c.tables[id].numTokens, a, b, c.blockSize);
      assert c.tables[id].numTokens + (a + b) == c.tables[id].numTokens + a + b;
      if c.CanAppend(id, a) && c.Append(id, a).CanAppend(id, b) {
        AppendShape(c, id, a, |c.freeList| - Needed(c.tables, c.blockSize, id, a));
        SameAppend(c, c.Append(id, a), id, a, b);
      }
    }
  }

  lemma BlocksAddUp(s: seq<BlockId>, t: seq<BlockId>, u: seq<BlockId>)
    ensures (s + t) + u == s + (t + u)
  {
  }

  /** Taking down to `r1` and then to `r2` is taking down to `r2`. */
  lemma TakesCollapse(c: Cache, id: SeqId, r1: nat, r2: nat, t: BlockTable, u: BlockTable)
    requires r2 <= r1 <= |c.freeList| <= c.numBlocks
    ensures Cache(c.blockSize, c.numBlocks, c.freeList[..r1][..r2], c.tables[id := t][id := u],
                  Max(Max(c.peakBlocks, c.numBlocks - r1), c.numBlocks - r2))
         == Cache(c.blockSize, c.numBlocks, c.freeList[..r2], c.tables[id := u], Max(c.peakBlocks, c.numBlocks - r2))
  {
    TwiceUpdated(c.tables, id, t, u);
  }

  /** And the blocks end up in the same table in the same order. */
  lemma SameTable(blocks: seq<BlockId>, freeList: seq<BlockId>, r1: nat, r2: nat)
    requires r2 <= r1 <= |freeList|
    ensures (blocks + Reversed(freeList[r1..])) + Reversed(freeList[..r1][r2..]) == blocks + Reversed(freeList[r2..])
  {
    TakesCompose(freeList, r1, r2);
    BlocksAddUp(blocks, Reversed(freeList[r1..]), Reversed(freeList[..r1][r2..]));
  }

  lemma SameAppend(c: Cache, d: Cache, id: SeqId, a: nat, b: nat)
    requires |c.freeList| <= c.numBlocks && c.CanAppend(id, a) && d == c.Append(id, a)
    requires |d.freeList| <= d.numBlocks && d.CanAppend(id, b) && c.CanAppend(id, a + b)
    ensures d.Append(id, b) == c.Append(id, a + b)
  {
    var n, bs := c.tables[id].numTokens, c.blockSize;
    NeededSplits(n, a, b, bs);
    assert n + (a + b) == n + a + b;
    var r1 := |c.freeList| - Needed(c.tables, bs, id, a);
    AppendShape(c, id, a, r1);
    var r2 := r1 - Needed(d.tables, bs, id, b);
    AppendShape(d, id, b, r2);
    AppendShape(c, id, a + b, r2);
    SameTable(c.tables[id].blocks, c.freeList, r1, r2);
    TakesCollapse(c, id, r1, r2, d.tables[id], c.Append(id, a + b).tables[id]);
  }

  lemma TwiceUpdated(tables: map<SeqId, BlockTable>, id: SeqId, t: BlockTable, u: BlockTable)
    ensures tables[id := t][id := u] == tables[id := u]
  {
  }

  /** Rolling an admission back: admit then free is the identity for an unknown sequence. */
  lemma AdmitThenFree(c: Cache, id: SeqId)
    requires id !in c.tables
    ensures c.Admit(id).Free(id) == c
  {
    assert c.tables[id := EMPTY_TABLE] - {id} == c.tables;
    assert c.freeList + [] == c.freeList;
  }

  /** Freeing what was just placed returns the same blocks to the free list. */
  lemma PlaceThenFree(c: Cache, id: SeqId, count: nat)
    requires |c.freeList| <= c.numBlocks && id !in c.tables && c.Admit(id).CanAppend(id, count)
    ensures var d := c.Admit(id).Append(id, count).Free(id);
      d.tables == c.tables && multiset(d.freeList) == multiset(c.freeList)
  {
    var e := c.Admit(id);
    var rest := |c.freeList| - Needed(e.tables, e.blockSize, id, count);
    AppendShape(e, id, count, rest);
    var blocks := Reversed(c.freeList[rest..]);
    assert [] + blocks == blocks;
    var d := e.Append(id, count);
    assert d.freeList == c.freeList[..rest] && d.tables == c.tables[id := EMPTY_TABLE][id := BlockTable(blocks, count)];
    assert d.Free(id).freeList == c.freeList[..rest] + blocks && d.Free(id).tables == d.tables - {id};
    PlacedThenFreed(c.freeList, rest);
    UpdateThenRemove(c.tables, id, EMPTY_TABLE, BlockTable(blocks, count));
  }

  lemma PlacedThenFreed(freeList: seq<BlockId>, rest: nat)
    requires rest <= |freeList|
    ensures multiset(freeList[..rest] + Reversed(freeList[rest..])) == multiset(freeList)
  {
    ReversedSame(freeList[rest..]);
    assert freeList == freeList[..rest] + freeList[rest..];
  }

  lemma UpdateThenRemove(tables: map<SeqId, BlockTable>, id: SeqId, t: BlockTable, u: BlockTable)
    requires id !in tables
    ensures tables[id := t][id := u] - {id} == tables
  {
  }

  // ---- Fragmentation ----

  ghost function Fragmentation(tables: map<SeqId, BlockTable>, blockSize: pos): nat
    requires forall k :: k in tables ==> tables[k].Exact(blockSize)
    decreases |tables|
  {
    if tables == map[] then 0
    else
      var k := AnyKey(tables);
      tables[k].Slack(blockSize) + Fragmentation(tables - {k}, blockSize)
  }

  ghost function TokenCount(tables: map<SeqId, BlockTable>): nat
    decreases |tables|
  {
    if tables == map[] then 0
    else
      var k := AnyKey(tables);
      tables[k].numTokens + TokenCount(tables - {k})
  }

  lemma {:induction false} FragmentationSum(tables: map<SeqId, BlockTable>, blockSize: pos)
    requires forall k :: k in tables ==> tables[k].Exact(blockSize)
    ensures |Owned(tables)| * blockSize == TokenCount(tables) + Fragmentation(tables, blockSize)
    ensures Fragmentation(tables, blockSize) <= |tables| * (blockSize - 1)
    decreases |tables|
  {
    if tables != map[] {
      var k := AnyKey(tables);
      var t, rest := tables[k], tables - {k};
      FragmentationSum(rest, blockSize);
      assert tables.Keys == rest.Keys + {k};
      assert |Owned(tables)| == |t.blocks| + |Owned(rest)|;
      assert TokenCount(tables) == t.numTokens + TokenCount(rest);
      AddTable(t, |Owned(rest)|, |rest|, TokenCount(rest), Fragmentation(rest, blockSize), blockSize);
    }
  }

  lemma AddTable(t: BlockTable, owned: nat, count: nat, tokens: nat, slack: nat, blockSize: pos)
    requires t.Exact(blockSize) && owned * blockSize == tokens + slack && slack <= count * (blockSize - 1)
    ensures (|t.blocks| + owned) * blockSize == (t.numTokens + tokens) + (t.Slack(blockSize) + slack)
    ensures t.Slack(blockSize) + slack <= (count + 1) * (blockSize - 1)
  {
    Distribute(|t.blocks|, owned, blockSize);
    Distribute(count, 1, blockSize - 1);
  }

  /** The slots of the used blocks are the stored tokens plus the slack, and the slack
      is below one block per live sequence. */
  lemma SlotsAccountedFor(c: Cache)
    requires c.Valid()
    ensures c.Used() * c.blockSize == TokenCount(c.tables) + Fragmentation(c.tables, c.blockSize)
    ensures Fragmentation(c.tables, c.blockSize) <= |c.tables| * (c.blockSize - 1)
  {
    FragmentationSum(c.tables, c.blockSize);
    assert |multiset(c.freeList) + Owned(c.tables)| == |multiset(AllBlocks(c.numBlocks))|;
  }

  lemma {:induction false} FragmentationRemove(tables: map<SeqId, BlockTable>, blockSize: pos, k: SeqId)
    requires k in tables
    requires forall j :: j in tables ==> tables[j].Exact(blockSize)
    ensures Fragmentation(tables, blockSize) == tables[k].Slack(blockSize) + Fragmentation(tables - {k}, blockSize)
    decreases |tables|
  {
    var j := AnyKey(tables);
    if j != k {
      FragmentationRemove(tables - {j}, blockSize, k);
      FragmentationRemove(tables - {k}, blockSize, j);
      assert tables - {j} - {k} == tables - {k} - {j};
    }
  }
}

/** The allocator object. */
module PagedCaches {
  import opened Arith
  import opened CacheStates

  class PagedKVCache {
    const blockSize: pos
    const numBlocks: nat
    var freeList: seq<BlockId>
    var tables: map<SeqId, BlockTable>
    var peakBlocks: nat

    ghost function State(): Cache
      reads this
    {
      Cache(blockSize, numBlocks, freeList, tables, peakBlocks)
    }

    constructor (numBlocks: nat, blockSize: pos)
      ensures State() == Fresh(numBlocks, blockSize) && State().Valid()
      ensures tables == map[] && peakBlocks == 0
      ensures |freeList| == numBlocks && forall i :: 0 <= i < numBlocks ==> freeList[i] == i
    {
      this.blockSize := blockSize;
      this.numBlocks := numBlocks;
      freeList := AllBlocks(numBlocks);
      tables := map[];
      peakBlocks := 0;
      new;
      FreshValid(numBlocks, blockSize);
      AllBlocksInOrder(numBlocks);
    }

    method Admit(id: SeqId)
      requires State().Valid()
      modifies this
      ensures State() == old(State()).Admit(id) && State().Valid()
      ensures tables == if id in old(tables) then old(tables) else old(tables)[id := BlockTable([], 0)]
      ensures freeList == old(freeList) && peakBlocks == old(peakBlocks)
    {
      AdmitKeepsValid(State(), id);
      if id !in tables {
        tables := tables[id := EMPTY_TABLE];
      }
    }

    method BlocksNeededFor(id: SeqId, extra: nat) returns (needed: nat)
      requires State().Valid()
      ensures needed == Needed(tables, blockSize, id, extra)
      ensures var held, stored := if id in tables then |tables[id].blocks| else 0, if id in tables then tables[id].numTokens else 0;
        && stored + extra <= (held + needed) * blockSize
        && (needed > 0 ==> (held + needed - 1) * blockSize < stored + extra)
    {
      NeededIsLeast(tables, blockSize, id, extra);
      if id !in tables {
        DivCeilCountsBlocks(extra, blockSize);
        return DivCeil(extra, blockSize);
      }
      BlocksGrow(tables[id].numTokens, extra, blockSize);
      var slack := tables[id].Slack(blockSize);
      if extra <= slack {
        needed := 0;
      } else {
        DivCeilCountsBlocks(extra - slack, blockSize);
        needed := DivCeil(extra - slack, blockSize);
      }
    }

    /** The allocation loop of `append`: pop a block, push it on the table. */
    method TakeBlocks(id: SeqId, needed: nat)
      requires id in tables && needed <= |freeList|
      modifies this`freeList, this`tables
      ensures freeList == old(freeList)[..|old(freeList)| - needed]
      ensures tables == old(tables)[id := BlockTable(
          old(tables)[id].blocks + Reversed(old(freeList)[|old(freeList)| - needed..]), old(tables)[id].numTokens)]
    {
      ghost var stack, n, table := freeList, |freeList|, tables[id];
      assert stack[n..] == [] && table.blocks + [] == table.blocks;
      for i := 0 to needed
        invariant freeList == stack[..n - i]
        invariant tables == old(tables)[id := BlockTable(table.blocks + Reversed(stack[n - i..]), table.numTokens)]
      {
        var top := |freeList| - 1;
        var block := freeList[top];
        assert stack[top..] == [block] + stack[top + 1..];
        assert table.blocks + Reversed(stack[top..]) == table.blocks + Reversed(stack[top + 1..]) + [block];
        freeList := freeList[..top];
        tables := tables[id := BlockTable(tables[id].blocks + [block], tables[id].numTokens)];
      }
    }

    /** The part of `append` past the free-count check, where nothing can fail. */
    method Grow(id: SeqId, count: nat, needed: nat)
      requires |freeList| <= numBlocks && State().CanAppend(id, count)
      requires needed == Needed(tables, blockSize, id, count)
      modifies this
      ensures State() == old(State()).Append(id, count)
    {
      TakeBlocks(id, needed);
      tables := tables[id := BlockTable(tables[id].blocks, tables[id].numTokens + count)];
      peakBlocks := Max(peakBlocks, numBlocks - |freeList|);
      assert tables == old(State()).Append(id, count).tables;
    }

    method Append(id: SeqId, count: nat) returns (r: AppendResult)
      requires State().Valid()
      modifies this
      ensures State().Valid()
      ensures r.Ok? <==> old(State()).CanAppend(id, count)
      ensures State() == if r.Ok? then old(State()).Append(id, count) else old(State())
      ensures r.Err? && id !in old(tables) ==> r.error == UnknownSequence(id)
      ensures r.Err? && id in old(tables) ==>
        r.error == OutOfBlocks(Needed(old(tables), blockSize, id, count), |old(freeList)|)
    {
      if id !in tables {
        r := Err(UnknownSequence(id));
      } else {
        var needed := BlocksNeededFor(id, count);
        if needed > |freeList| {
          r := Err(OutOfBlocks(needed, |freeList|));
        } else {
          AppendKeepsValid(State(), id, count);
          Grow(id, count, needed);
          r := Ok;
        }
      }
    }

    method Free(id: SeqId)
      requires State().Valid()
      modifies this
      ensures State() == old(State()).Free(id) && State().Valid()
      ensures id in old(tables) ==> freeList == old(freeList) + old(tables)[id].blocks && tables == old(tables) - {id}
      ensures id !in old(tables) ==> freeList == old(freeList) && tables == old(tables)
      ensures peakBlocks == old(peakBlocks)
    {
      FreeKeepsValid(State(), id);
      Release(id);
    }

    /** The loop of `free`: forget the table, push its blocks back in order. */
    method Release(id: SeqId)
      modifies this`freeList, this`tables
      ensures State() == old(State()).Free(id)
    {
      if id in tables {
        ghost var before := freeList;
        var blocks := tables[id].blocks;
        tables := tables - {id};
        for i := 0 to |blocks|
          invariant freeList == before + blocks[..i]
          invariant tables == old(tables) - {id}
        {
          freeList := freeList + [blocks[i]];
        }
      }
    }

    /** Sum of the slack of every live table. */
    method InternalFragmentation() returns (total: nat)
      requires State().Valid()
      ensures total == Fragmentation(tables, blockSize)
      ensures total <= |tables| * (blockSize - 1)
    {
      total := 0;
      var rest := tables;
      while rest != map[]
        invariant forall k :: k in rest ==> rest[k].Exact(blockSize)
        invariant total + Fragmentation(rest, blockSize) == Fragmentation(tables, blockSize)
        decreases |rest|
      {
        assert rest.Keys != {};
        var k :| k in rest;
        FragmentationRemove(rest, blockSize, k);
        total := total + rest[k].Slack(blockSize);
        rest := rest - {k};
      }
      FragmentationSum(tables, blockSize);
    }

    /** Frees a sequence that holds as many blocks as any other; which one, when
        several do, is left open, as the map's iteration order is. */
    method EvictLargest() returns (found: bool, victim: SeqId)
      requires State().Valid()
      modifies this
      ensures State().Valid()
      ensures found <==> old(tables) != map[]
      ensures !found ==> State() == old(State())
      ensures found ==> victim in old(tables) && State() == old(State()).Free(victim)
      ensures found ==> forall k :: k in old(tables) ==> |old(tables)[k].blocks| <= |old(tables)[victim].blocks|
      ensures found ==> |freeList| == |old(freeList)| + |old(tables)[victim].blocks|
    {
      found, victim := false, 0;
      if tables == map[] {
        return;
      }
      assert tables.Keys != {};
      victim :| victim in tables;
      var rest := tables - {victim};
      while rest != map[]
        invariant rest.Keys <= tables.Keys && victim in tables && victim !in rest
        invariant forall k :: k in tables && k !in rest ==> |tables[k].blocks| <= |tables[victim].blocks|
        decreases |rest|
      {
        assert rest.Keys != {};
        var k :| k in rest;
        if |tables[k].blocks| >= |tables[victim].blocks| {
          victim := k;
        }
        rest := rest - {k};
      }
      found := true;
      Free(victim);
    }
  }
}
