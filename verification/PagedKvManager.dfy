/** The page table manager itself: the fields the source updates in place and its
    methods, each proved to take the abstract state where PagedKv's function does. */
module PagedKvManager {
  import opened Wrappers
  import opened Sums
  import opened Arithmetic
  import opened PagedKv
  import opened PagedKvChunks
  import opened PagedKvSound
  import opened PagedKvOps
  import opened PagedKvOwnership
  import opened PagedKvTheorems

  /** What a call hands back, as a value: its result or its exception, and the state. */
  function AsOutcome<T>(error: Option<KvError>, value: T, cache: Cache): Outcome<T> {
    if error.None? then Return(value, cache) else Throw(error.value, cache)
  }

  datatype BatchDescriptor = BatchDescriptor(batchSize: nat, maxBlocksPerSeq: nat)

  datatype Stats = Stats(
    totalBlocks: nat, freeBlocks: nat, cachedPrefixBlocks: nat, allocatedBlocks: int, activeSequences: nat,
    hits: nat, misses: nat, evictions: nat)

  /** Index of column b of row i in a table with m columns. */
  function Cell(i: nat, m: nat, b: nat): nat {
    i * m + b
  }

  lemma CellBounds(i: nat, n: nat, m: nat, b: nat)
    requires i < n && b < m
    ensures Cell(i, m, b) < n * m
  {
    assert (i + 1) * m <= n * m;
  }

  /** Rows follow one another, and so do the columns of a row. */
  lemma RowMajor(i: nat, m: nat, b: nat)
    ensures Cell(0, m, 0) == 0
    ensures Cell(i, m, b + 1) == Cell(i, m, b) + 1
    ensures Cell(i + 1, m, 0) == Cell(i, m, m)
  {
    assert (i + 1) * m == i * m + m;
  }

  /** Two cells with the same index are the same cell. */
  lemma CellInjective(i: nat, b: nat, i': nat, b': nat, m: nat)
    requires b < m && b' < m && Cell(i, m, b) == Cell(i', m, b')
    ensures i == i' && b == b'
  {
    DivModUnique(Cell(i, m, b), m, i, b);
    DivModUnique(Cell(i', m, b'), m, i', b');
  }

  lemma CellsInside(n: nat, m: nat)
    ensures forall r, b :: 0 <= r < n && 0 <= b < m ==> Cell(r, m, b) < n * m
  {
    forall r, b | 0 <= r < n && 0 <= b < m ensures Cell(r, m, b) < n * m {
      CellBounds(r, n, m, b);
    }
  }

  lemma OnlyThisCell(i: nat, c: nat, n: nat, m: nat)
    requires i < n && c < m
    ensures forall r, b :: 0 <= r < n && 0 <= b < m && Cell(r, m, b) == Cell(i, m, c) ==> r == i && b == c
  {
    forall r, b | 0 <= r < n && 0 <= b < m && Cell(r, m, b) == Cell(i, m, c) ensures r == i && b == c {
      CellInjective(r, b, i, c, m);
    }
  }

  lemma ProductBound(a: nat, a': nat, b: nat, b': nat)
    requires a <= a' && b <= b'
    ensures a * b <= a' * b'
  {
    assert a * b <= a' * b <= a' * b';
  }

  /** The length of the longest page table of a batch. */
  function Widest(tables: map<nat, seq<nat>>, ids: seq<nat>): (m: nat)
    requires forall i :: 0 <= i < |ids| ==> ids[i] in tables
    ensures forall i :: 0 <= i < |ids| ==> |tables[ids[i]]| <= m
    ensures ids == [] || exists i :: 0 <= i < |ids| && |tables[ids[i]]| == m
  {
    if ids == [] then 0
    else
      var w, last := Widest(tables, ids[..|ids| - 1]), |tables[ids[|ids| - 1]]|;
      if last > w then last else w
  }

  function BatchError(cfg: Config, c: Cache, ids: seq<nat>): Option<KvError> {
    if |ids| > cfg.maxBatch then Some(OutOfRange)
    else if exists i :: 0 <= i < |ids| && ids[i] !in c.tables then Some(NotRegistered)
    else if Widest(c.tables, ids) > cfg.maxBlocksPerSeq then Some(OutOfRange)
    else None
  }

  /** A batch is accepted up to the limits, all its sequences being registered; the
      first check that fails decides on the error. */
  lemma BatchErrorIff(cfg: Config, c: Cache, ids: seq<nat>)
    ensures BatchError(cfg, c, ids) == None <==>
      && |ids| <= cfg.maxBatch
      && forall i :: 0 <= i < |ids| ==> ids[i] in c.tables && |c.tables[ids[i]]| <= cfg.maxBlocksPerSeq
    ensures BatchError(cfg, c, ids) == Some(NotRegistered) <==>
      |ids| <= cfg.maxBatch && exists i :: 0 <= i < |ids| && ids[i] !in c.tables
    ensures BatchError(cfg, c, ids) in {None, Some(NotRegistered), Some(OutOfRange)}
  {
  }

  /** A row of the flattened table: the page table, padded with -1. */
  function Padded(t: seq<nat>, b: nat): int {
    if b < |t| then t[b] else -1
  }

  /** The lengths staged for a batch are those its sequences are recorded to have. */
  lemma BatchLengths(cfg: Config, c: Cache, ids: seq<nat>, staged: seq<int>)
    requires Shape(cfg, c) && |staged| == |ids|
    requires forall i :: 0 <= i < |ids| ==> ids[i] in c.tables && staged[i] == ContextLen(cfg, c, ids[i])
    ensures forall prompts, lens :: Owned(cfg, c, prompts, lens) ==>
      forall i :: 0 <= i < |ids| ==> ids[i] in lens && staged[i] == lens[ids[i]]
  {
    hide Shape, Owned, ContextLen;
    forall prompts, lens, i | Owned(cfg, c, prompts, lens) && 0 <= i < |ids|
      ensures ids[i] in lens && staged[i] == lens[ids[i]]
    {
      OwnedContext(cfg, c, prompts, lens, ids[i]);
    }
  }

  lemma AddTailStuck(cfg: Config, f: Filling, tail: nat)
    requires FillShape(cfg, f) && tail < cfg.blockSize && !f.ok
    ensures AddTail(cfg, f, tail) == f
  {
  }

  // ----- A registration in three parts -----

  lemma RegisterKnown(cfg: Config, c: Cache, id: nat, prompt: seq<int>)
    requires Shape(cfg, c)
    ensures id in c.tables ==> Register(cfg, c, id, prompt) == Return(0, c)
  {
    hide Shape;
  }

  lemma LookupShape(cfg: Config, c: Cache, q: seq<seq<int>>)
    requires Shape(cfg, c)
    ensures var f := AfterLookup(cfg, c, q);
      TreeShape(c.tree, cfg.totalBlocks) && FillShape(cfg, f) && |f.table| == Lookup(cfg, c.tree, q)
  {
  }

  /** What a registration comes to, once the full blocks are placed. */
  lemma RegisterPlaced(cfg: Config, c: Cache, id: nat, prompt: seq<int>, f: Filling)
    requires Shape(cfg, c) && id !in c.tables
    requires var q := Chunks(prompt, cfg.blockSize);
      f == FillTo(cfg, q, AfterLookup(cfg, c, q), Lookup(cfg, c.tree, q), |q|)
    ensures FillShape(cfg, f) && f.cache.tables == c.tables
    ensures !f.ok ==> Register(cfg, c, id, prompt) == Throw(OutOfPages, f.cache)
    ensures f.ok ==>
      var g := AddTail(cfg, f, TailLength(prompt, cfg.blockSize));
      Register(cfg, c, id, prompt) ==
        if !g.ok then Throw(OutOfPages, g.cache)
        else Return(TokensIn(Lookup(cfg, c.tree, Chunks(prompt, cfg.blockSize)), cfg.blockSize),
                    Publish(cfg, g.cache, id, g.table))
  {
    hide Shape, FillTo, AfterLookup, Chunks, Lookup, TokensIn, Publish;
    assert f == Placed(cfg, c, prompt);
    if !f.ok {
      AddTailStuck(cfg, f, TailLength(prompt, cfg.blockSize));
    }
  }

  lemma PublishKeeps(cfg: Config, c: Cache, id: nat, t: seq<nat>)
    requires Shape(cfg, c) && t != [] && InRange(t, cfg.totalBlocks)
    ensures Publish(cfg, c, id, t) == c.(tables := c.tables[id := t]) && Shape(cfg, c.(tables := c.tables[id := t]))
  {
  }

  ghost function FreeBlocks(c: Cache): set<nat> {
    set b | b in Upto(|c.blocks|) && b < |c.blocks| && c.blocks[b].refCount == 0 && !c.blocks[b].cached
  }

  ghost function CachedBlocks(c: Cache): set<nat> {
    set b | b in Upto(|c.blocks|) && b < |c.blocks| && c.blocks[b].cached
  }

  ghost predicate BlockCounts(c: Cache, s: Stats) {
    s.freeBlocks == |FreeBlocks(c)| && s.cachedPrefixBlocks == |CachedBlocks(c)| && s.allocatedBlocks == |InUse(c)|
  }

  /** The free stack and the LRU list have one entry for each block of their kind. */
  lemma BlockSets(cfg: Config, c: Cache, held: multiset<nat>)
    requires Sound(cfg, c, held)
    ensures |c.free| == |FreeBlocks(c)| && |c.lru| == |CachedBlocks(c)|
    ensures cfg.totalBlocks - |c.free| - |c.lru| == |InUse(c)|
  {
    AllocatedBlocks(cfg, c, held);
    ElementsSize(c.free);
    ElementsSize(c.lru);
    hide Accounted, HashRules, TreeShape;
    assert Elements(c.free) == FreeBlocks(c);
    assert Elements(c.lru) == CachedBlocks(c);
  }

  class PagedKVCache {
    const config: Config
    var physicalBlocks: seq<Block>
    var freeBlockStack: seq<nat>
    var lruList: seq<nat>
    var tree: seq<Node>
    var pageTables: map<nat, seq<nat>>
    var prefixCacheHits: nat
    var prefixCacheMisses: nat
    var lruEvictionsCount: nat

    // Pinned staging buffers
    const stagedBlockTables: array<int>
    const stagedContextLens: array<int>

    ghost function View(): Cache
      reads this
    {
      Cache(physicalBlocks, freeBlockStack, lruList, tree, pageTables,
            prefixCacheHits, prefixCacheMisses, lruEvictionsCount)
    }

    ghost predicate Valid()
      reads this
    {
      && Shape(config, View())
      && stagedBlockTables.Length == config.maxBatch * config.maxBlocksPerSeq
      && stagedContextLens.Length == config.maxBatch
      && stagedBlockTables != stagedContextLens
    }

    constructor (config: Config)
      ensures this.config == config && Valid() && View() == Init(config)
    {
      this.config := config;
      stagedBlockTables := new int[config.maxBatch * config.maxBlocksPerSeq];
      stagedContextLens := new int[config.maxBatch];
      physicalBlocks := seq(config.totalBlocks, _ => Block(0, 0, 0, false));
      tree := [Node(0, -1, map[])];
      lruList, pageTables := [], map[];
      prefixCacheHits, prefixCacheMisses, lruEvictionsCount := 0, 0, 0;
      freeBlockStack := [];
      new;
      var i := config.totalBlocks;
      while i > 0
        invariant 0 <= i <= config.totalBlocks && |freeBlockStack| == config.totalBlocks - i
        invariant forall j :: 0 <= j < |freeBlockStack| ==> freeBlockStack[j] == config.totalBlocks - 1 - j
        invariant View() == Init(config).(free := freeBlockStack)
      {
        i := i - 1;
        freeBlockStack := freeBlockStack + [i];
      }
    }

    /** Scans the LRU list from the back for an unreferenced block. */
    method EvictLruBlock() returns (evicted: bool)
      requires Valid()
      modifies this
      ensures Valid()
      ensures match Victim(config, old(View()), |old(lruList)|)
        case None => !evicted && View() == old(View())
        case Some(k) => evicted && View() == EvictAt(config, old(View()), k)
    {
      var i := |lruList|;
      while i > 0
        invariant 0 <= i <= |lruList| && View() == old(View())
        invariant Victim(config, View(), |lruList|) == Victim(config, View(), i)
      {
        var b := lruList[i - 1];
        if physicalBlocks[b].refCount == 0 {
          lruList := lruList[..i - 1] + lruList[i..];
          physicalBlocks := physicalBlocks[b := physicalBlocks[b].(cached := false, hash := 0, filled := 0)];
          freeBlockStack := freeBlockStack + [b];
          lruEvictionsCount := lruEvictionsCount + 1;
          return true;
        }
        i := i - 1;
      }
      return false;
    }

    method AllocatePhysicalBlock() returns (error: Option<KvError>, block: nat)
      requires Valid()
      modifies this
      ensures Valid()
      ensures AsOutcome(error, block, View()) == Allocate(config, old(View()))
    {
      if freeBlockStack == [] {
        var evicted := EvictLruBlock();
        if !evicted {
          return Some(OutOfPages), 0;
        }
      }
      block := freeBlockStack[|freeBlockStack| - 1];
      freeBlockStack := freeBlockStack[..|freeBlockStack| - 1];
      physicalBlocks := physicalBlocks[block := physicalBlocks[block].(refCount := 1, filled := 0, cached := false)];
      error := None;
    }

    method FreePhysicalBlock(block: nat)
      requires Valid()
      modifies this
      ensures Valid() && View() == Release(config, old(View()), block)
    {
      if block >= config.totalBlocks || physicalBlocks[block].refCount == 0 {
        return;
      }
      physicalBlocks := physicalBlocks[block := physicalBlocks[block].(refCount := physicalBlocks[block].refCount - 1)];
      if physicalBlocks[block].refCount == 0 {
        if config.caching && physicalBlocks[block].hash != 0 {
          physicalBlocks := physicalBlocks[block := physicalBlocks[block].(cached := true)];
          lruList := [block] + lruList;
        } else {
          physicalBlocks := physicalBlocks[block := physicalBlocks[block].(filled := 0)];
          freeBlockStack := freeBlockStack + [block];
        }
      }
    }

    /** The lookup loop of a registration: takes over every block it matches. */
    method LookupPrefix(prompt: seq<int>, ghost q: seq<seq<int>>)
      returns (blockTable: seq<nat>, parentHash: nat, node: nat)
      requires Valid() && q == Chunks(prompt, config.blockSize)
      modifies this
      ensures Valid()
      ensures Filling(true, View(), blockTable, node) == AfterLookup(config, old(View()), q)
      ensures |blockTable| == Lookup(config, old(View()).tree, q) && parentHash == Chain(config, q, |blockTable|)
    {
      hide Chunks, Claim, InRange;
      var fullBlocks := FullBlocks(prompt, config.blockSize);
      blockTable, parentHash, node := [], 0, 0;
      ghost var c0 := View();
      if config.caching {
        var b := 0;
        while b < fullBlocks
          invariant b == |blockTable| <= |q| && Valid()
          invariant Reach(config, c0.tree, q, b) == Some(node) && parentHash == Chain(config, q, b)
          invariant Matched(config, c0.tree, q, 0) == Matched(config, c0.tree, q, b)
          invariant blockTable == HitBlocks(config, c0.tree, q, b)
          invariant View() == ClaimAll(config, c0, blockTable)
        {
          var blockHash := config.hash(BlockTokens(prompt, config.blockSize, b), parentHash);
          if blockHash !in tree[node].children {
            break;
          }
          node := tree[node].children[blockHash];
          var cachedBlock: nat := tree[node].block;
          ghost var before := blockTable;
          Hit(cachedBlock);
          blockTable := blockTable + [cachedBlock];
          assert blockTable[..|blockTable| - 1] == before;
          parentHash := blockHash;
          b := b + 1;
        }
      }
    }

    /** A cache hit takes one more reference and takes the block off the LRU list. */
    method Hit(block: nat)
      requires Valid() && block < config.totalBlocks
      modifies this
      ensures Valid() && View() == Claim(config, old(View()), block)
    {
      WithoutKeepsRange(lruList, block, config.totalBlocks);
      physicalBlocks := physicalBlocks[block := physicalBlocks[block].(refCount := physicalBlocks[block].refCount + 1)];
      if physicalBlocks[block].cached {
        physicalBlocks := physicalBlocks[block := physicalBlocks[block].(cached := false)];
        lruList := Without(lruList, block);
      }
      prefixCacheHits := prefixCacheHits + 1;
    }

    /** Allocates and files one unmatched token block. */
    method PlaceChunk(blockTable: seq<nat>, node: nat, blockHash: nat)
      returns (error: Option<KvError>, newTable: seq<nat>, newNode: nat)
      requires Valid() && InRange(blockTable, config.totalBlocks) && node < |tree|
      modifies this
      ensures Valid()
      ensures Filling(error.None?, View(), newTable, newNode)
        == InsertChunk(config, Filling(true, old(View()), blockTable, node), blockHash)
      ensures error.Some? ==> error.value == OutOfPages
    {
      var newBlock: nat;
      error, newBlock := AllocatePhysicalBlock();
      newTable, newNode := blockTable, node;
      if error.None? {
        physicalBlocks := physicalBlocks[newBlock := physicalBlocks[newBlock].(filled := config.blockSize)];
        physicalBlocks := physicalBlocks[newBlock := physicalBlocks[newBlock].(hash := blockHash)];
        newNode := |tree|;
        tree := tree[node := tree[node].(children := tree[node].children[blockHash := newNode])]
          + [Node(blockHash, newBlock, map[])];
        newTable := blockTable + [newBlock];
        prefixCacheMisses := prefixCacheMisses + 1;
      }
    }

    /** The loop over the full blocks the lookup did not match. */
    method PlaceChunks(prompt: seq<int>, matched: nat, blockTable: seq<nat>, parentHash: nat, node: nat,
                       ghost q: seq<seq<int>>)
      returns (error: Option<KvError>, newTable: seq<nat>, newNode: nat)
      requires Valid() && InRange(blockTable, config.totalBlocks) && node < |tree|
      requires q == Chunks(prompt, config.blockSize) && matched <= |q| && parentHash == Chain(config, q, matched)
      modifies this
      ensures Valid()
      ensures Filling(error.None?, View(), newTable, newNode)
        == FillTo(config, q, Filling(true, old(View()), blockTable, node), matched, |q|)
      ensures error.Some? ==> error.value == OutOfPages
    {
      hide Shape, InRange, InsertChunk;
      ghost var f := Filling(true, View(), blockTable, node);
      var hash := parentHash;
      var j := matched;
      error, newTable, newNode := None, blockTable, node;
      while j < FullBlocks(prompt, config.blockSize)
        invariant matched <= j <= |q| && Valid() && hash == Chain(config, q, j) && error.None?
        invariant Filling(true, View(), newTable, newNode) == FillTo(config, q, f, matched, j)
      {
        hash := config.hash(BlockTokens(prompt, config.blockSize, j), hash);
        error, newTable, newNode := PlaceChunk(newTable, newNode, hash);
        j := j + 1;
        if error.Some? {
          FillToStuck(config, q, f, matched, j, |q|);
          return;
        }
      }
    }

    method RegisterSequenceWithPrefix(id: nat, prompt: seq<int>) returns (error: Option<KvError>, matchedTokens: nat)
      requires Valid()
      modifies this
      ensures Valid()
      ensures AsOutcome(error, matchedTokens, View()) == Register(config, old(View()), id, prompt)
      ensures id in old(pageTables) ==> error.None? && matchedTokens == 0 && View() == old(View())
    {
      hide Shape, InRange, Chunks, FillTo, AfterLookup, Lookup, AddTail, TokensIn, Placed, Prepared, Register, Publish;
      RegisterKnown(config, View(), id, prompt);
      if id in pageTables {
        return None, 0;
      }
      ghost var q := Chunks(prompt, config.blockSize);
      ghost var c0 := View();
      LookupShape(config, c0, q);
      var blockTable, parentHash, node := LookupPrefix(prompt, q);
      matchedTokens := TokensIn(|blockTable|, config.blockSize);
      error, blockTable, node := PlaceChunks(prompt, |blockTable|, blockTable, parentHash, node, q);
      ghost var f := Filling(error.None?, View(), blockTable, node);
      RegisterPlaced(config, c0, id, prompt, f);
      if error.Some? {
        return;
      }
      error, blockTable := PlaceTail(TailLength(prompt, config.blockSize), blockTable, node);
      if error.Some? {
        return;
      }
      PublishKeeps(config, View(), id, blockTable);
      pageTables := pageTables[id := blockTable];
    }

    /** The block for the tokens after the last full block. */
    method PlaceTail(tailTokens: nat, blockTable: seq<nat>, ghost node: nat)
      returns (error: Option<KvError>, newTable: seq<nat>)
      requires Valid() && InRange(blockTable, config.totalBlocks) && node < |tree| && tailTokens < config.blockSize
      modifies this
      ensures Valid()
      ensures Filling(error.None?, View(), newTable, node)
        == AddTail(config, Filling(true, old(View()), blockTable, node), tailTokens)
      ensures error.Some? ==> error.value == OutOfPages
    {
      error, newTable := None, blockTable;
      if tailTokens > 0 || blockTable == [] {
        var tailBlock: nat;
        error, tailBlock := AllocatePhysicalBlock();
        if error.None? {
          physicalBlocks := physicalBlocks[tailBlock := physicalBlocks[tailBlock].(filled := tailTokens)];
          newTable := blockTable + [tailBlock];
        }
      }
    }

    /** Adds one block, holding the given number of tokens, to a page table. */
    method GrowTable(id: nat, added: nat) returns (error: Option<KvError>, newBlock: nat)
      requires Valid() && id in pageTables && added <= config.blockSize
      modifies this
      ensures Valid() && id in pageTables
      ensures AsOutcome(error, newBlock, View()) == Grow(config, old(View()), id, added)
    {
      error, newBlock := AllocatePhysicalBlock();
      if error.None? {
        physicalBlocks := physicalBlocks[newBlock := physicalBlocks[newBlock].(filled := added)];
        pageTables := pageTables[id := pageTables[id] + [newBlock]];
      }
    }

    method AppendTokens(id: nat, numTokens: nat) returns (error: Option<KvError>)
      requires Valid()
      modifies this
      ensures Valid()
      ensures AsOutcome(error, (), View()) == Append(config, old(View()), id, numTokens)
      ensures id !in old(pageTables) ==> error == Some(NotRegistered) && View() == old(View())
    {
      if id !in pageTables {
        return Some(NotRegistered);
      }
      var last := Last(pageTables[id]);
      var available := config.blockSize - physicalBlocks[last].filled;
      assert available == Room(config, View(), id);
      if numTokens <= available {
        var filled := physicalBlocks[last].filled + numTokens;
        physicalBlocks := physicalBlocks[last := physicalBlocks[last].(filled := filled)];
        return None;
      }
      var remaining: nat := numTokens - available;
      physicalBlocks := physicalBlocks[last := physicalBlocks[last].(filled := config.blockSize)];
      error := ExtendTable(id, remaining);
    }

    /** The loop that adds blocks until every token has a place. */
    method ExtendTable(id: nat, tokens: nat) returns (error: Option<KvError>)
      requires Valid() && id in pageTables
      modifies this
      ensures Valid()
      ensures AsOutcome(error, (), View()) == Extend(config, old(View()), id, tokens)
    {
      hide Shape, Grow, BlocksFor;
      var remaining: nat := tokens;
      var additional := BlocksFor(remaining, config.blockSize);
      var i := 0;
      while i < additional
        invariant 0 <= i <= additional && Valid() && id in pageTables
        invariant additional - i == BlocksFor(remaining, config.blockSize)
        invariant Extend(config, old(View()), id, tokens) == Extend(config, View(), id, remaining)
      {
        BlocksForStep(remaining, config.blockSize);
        var added := if remaining < config.blockSize then remaining else config.blockSize;
        var newBlock: nat;
        error, newBlock := GrowTable(id, added);
        if error.Some? {
          return;
        }
        remaining := remaining - added;
        i := i + 1;
        BlocksForStep(remaining, config.blockSize);
      }
      BlocksForStep(remaining, config.blockSize);
      error := None;
    }

    method UnregisterSequence(id: nat)
      requires Valid()
      modifies this
      ensures Valid() && View() == Unregister(config, old(View()), id)
      ensures id !in old(pageTables) ==> View() == old(View())
    {
      if id !in pageTables {
        return;
      }
      var blockTable := pageTables[id];
      hide Release;
      ghost var c0 := View();
      var i := 0;
      while i < |blockTable|
        invariant 0 <= i <= |blockTable| && Valid()
        invariant View() == ReleaseAll(config, c0, blockTable[..i])
      {
        FreePhysicalBlock(blockTable[i]);
        assert blockTable[..i + 1][..i] == blockTable[..i];
        i := i + 1;
      }
      assert blockTable[..i] == blockTable;
      pageTables := pageTables - {id};
    }

    method ForkSequence(parent: nat, child: nat) returns (error: Option<KvError>)
      requires Valid()
      modifies this
      ensures Valid()
      ensures AsOutcome(error, (), View()) == Fork(config, old(View()), parent, child)
      ensures parent !in old(pageTables) ==> error == Some(ParentNotFound) && View() == old(View())
    {
      if parent !in pageTables {
        return Some(ParentNotFound);
      }
      var parentBlocks := pageTables[parent];
      assert parentBlocks != [] && InRange(parentBlocks, config.totalBlocks);
      hide Shape, Retain;
      ghost var c0 := View();
      var i := 0;
      while i < |parentBlocks|
        invariant 0 <= i <= |parentBlocks| && Valid()
        invariant View() == Share(config, c0, parentBlocks[..i])
      {
        RetainBlock(parentBlocks[i]);
        assert parentBlocks[..i + 1][..i] == parentBlocks[..i];
        i := i + 1;
      }
      assert parentBlocks[..i] == parentBlocks;
      PublishKeeps(config, View(), child, parentBlocks);
      pageTables := pageTables[child := parentBlocks];
      error := None;
    }

    method RetainBlock(block: nat)
      requires Valid() && block < config.totalBlocks
      modifies this
      ensures Valid() && View() == Retain(config, old(View()), block)
    {
      physicalBlocks := physicalBlocks[block := physicalBlocks[block].(refCount := physicalBlocks[block].refCount + 1)];
    }

    /** On a sound cache the three numbers of blocks count the blocks that are free,
        cached and in use; they add up to the total. */
    method GetStats() returns (stats: Stats)
      requires Valid()
      ensures forall held :: Sound(config, View(), held) ==> BlockCounts(View(), stats)
      ensures stats.totalBlocks == config.totalBlocks
        && stats.freeBlocks + stats.cachedPrefixBlocks + stats.allocatedBlocks == stats.totalBlocks
      ensures stats.activeSequences == |pageTables.Keys|
      ensures (stats.hits, stats.misses, stats.evictions) == (prefixCacheHits, prefixCacheMisses, lruEvictionsCount)
    {
      forall held | Sound(config, View(), held)
        ensures |freeBlockStack| == |FreeBlocks(View())| && |lruList| == |CachedBlocks(View())|
        ensures config.totalBlocks - |freeBlockStack| - |lruList| == |InUse(View())|
      {
        BlockSets(config, View(), held);
      }
      stats := Stats(config.totalBlocks, |freeBlockStack|, |lruList|,
                     config.totalBlocks - |freeBlockStack| - |lruList|, |pageTables|,
                     prefixCacheHits, prefixCacheMisses, lruEvictionsCount);
    }

    /** Copies one page table into its row; no other cell changes. */
    method StageRow(i: nat, n: nat, m: nat, blocks: seq<nat>)
      requires i < n && |blocks| <= m && n * m <= stagedBlockTables.Length
      modifies stagedBlockTables
      ensures forall r, b :: 0 <= r < n && 0 <= b < m ==> Cell(r, m, b) < n * m
      ensures forall r, b :: 0 <= r < n && 0 <= b < m ==>
        stagedBlockTables[Cell(r, m, b)] ==
          if r == i && b < |blocks| then blocks[b] else old(stagedBlockTables[Cell(r, m, b)])
    {
      CellsInside(n, m);
      var c := 0;
      while c < |blocks|
        invariant 0 <= c <= |blocks|
        invariant forall r, b :: 0 <= r < n && 0 <= b < m ==>
          stagedBlockTables[Cell(r, m, b)] ==
            if r == i && b < c then blocks[b] else old(stagedBlockTables[Cell(r, m, b)])
      {
        OnlyThisCell(i, c, n, m);
        stagedBlockTables[Cell(i, m, c)] := blocks[c];
        c := c + 1;
      }
    }

    method PrepareBatchMetadata(ids: seq<nat>) returns (error: Option<KvError>, desc: BatchDescriptor)
      requires Valid()
      modifies stagedBlockTables, stagedContextLens
      ensures error == BatchError(config, View(), ids)
      ensures error.None? <==>
        && |ids| <= config.maxBatch
        && forall i :: 0 <= i < |ids| ==> ids[i] in pageTables && |pageTables[ids[i]]| <= config.maxBlocksPerSeq
      ensures error.None? ==> desc == BatchDescriptor(|ids|, Widest(pageTables, ids))
      ensures error.None? ==> forall i, b :: 0 <= i < |ids| && 0 <= b < desc.maxBlocksPerSeq ==>
        && Cell(i, desc.maxBlocksPerSeq, b) < stagedBlockTables.Length
        && stagedBlockTables[Cell(i, desc.maxBlocksPerSeq, b)]
             == if b < |pageTables[ids[i]]| then pageTables[ids[i]][b] else -1
      ensures error.None? ==> forall i :: 0 <= i < |ids| ==>
        ids[i] in pageTables && stagedContextLens[i] == ContextLen(config, View(), ids[i])
      ensures error.None? ==> forall prompts, lens :: Owned(config, View(), prompts, lens) ==>
        forall i :: 0 <= i < |ids| ==> ids[i] in lens && stagedContextLens[i] == lens[ids[i]]
    {
      BatchErrorIff(config, View(), ids);
      hide Shape, Owned, Cell, ContextLen, Widest;
      var m: nat;
      error, m := CheckBatch(ids);
      desc := BatchDescriptor(|ids|, m);
      if error.None? {
        StageBatch(ids, |ids|, m);
        BatchLengths(config, View(), ids, stagedContextLens[..|ids|]);
      }
    }

    /** The checks, in their order, and the length of the longest page table. */
    method CheckBatch(ids: seq<nat>) returns (error: Option<KvError>, m: nat)
      ensures error == BatchError(config, View(), ids)
      ensures error.None? ==> m == Widest(pageTables, ids)
    {
      m := 0;
      if |ids| > config.maxBatch {
        return Some(OutOfRange), 0;
      }
      var j := 0;
      while j < |ids|
        invariant 0 <= j <= |ids|
        invariant forall i :: 0 <= i < j ==> ids[i] in pageTables
        invariant m == Widest(pageTables, ids[..j])
      {
        if ids[j] !in pageTables {
          return Some(NotRegistered), 0;
        }
        assert ids[..j + 1][..j] == ids[..j];
        m := if |pageTables[ids[j]]| > m then |pageTables[ids[j]]| else m;
        j := j + 1;
      }
      assert ids[..j] == ids;
      error := if m > config.maxBlocksPerSeq then Some(OutOfRange) else None;
    }

    method StageLength(i: nat, id: nat)
      requires Valid() && i < config.maxBatch && id in pageTables
      modifies stagedContextLens
      ensures stagedContextLens[i] == ContextLen(config, View(), id)
      ensures forall k :: 0 <= k < stagedContextLens.Length && k != i ==>
        stagedContextLens[k] == old(stagedContextLens[k])
    {
      var blocks := pageTables[id];
      stagedContextLens[i] := TokensIn(|blocks| - 1, config.blockSize) + physicalBlocks[Last(blocks)].filled;
    }

    /** Fills the staging buffers for a batch that fits them. */
    method StageBatch(ids: seq<nat>, n: nat, m: nat)
      requires Valid() && n == |ids| <= config.maxBatch && m <= config.maxBlocksPerSeq
      requires forall i :: 0 <= i < n ==> ids[i] in pageTables && |pageTables[ids[i]]| <= m
      modifies stagedBlockTables, stagedContextLens
      ensures forall i, b :: 0 <= i < n && 0 <= b < m ==>
        Cell(i, m, b) < stagedBlockTables.Length && stagedBlockTables[Cell(i, m, b)] == Padded(pageTables[ids[i]], b)
      ensures forall i :: 0 <= i < n ==> stagedContextLens[i] == ContextLen(config, View(), ids[i])
    {
      hide Shape, Cell, ContextLen;
      ProductBound(n, config.maxBatch, m, config.maxBlocksPerSeq);
      CellsInside(n, m);
      forall k | 0 <= k < n * m {
        stagedBlockTables[k] := -1;
      }
      var i := 0;
      while i < n
        invariant 0 <= i <= n
        invariant forall r, b :: 0 <= r < n && 0 <= b < m ==>
          stagedBlockTables[Cell(r, m, b)] == if r < i then Padded(pageTables[ids[r]], b) else -1
        invariant forall r :: 0 <= r < i ==> stagedContextLens[r] == ContextLen(config, View(), ids[r])
      {
        StageRow(i, n, m, pageTables[ids[i]]);
        StageLength(i, ids[i]);
        i := i + 1;
      }
    }
  }
}
