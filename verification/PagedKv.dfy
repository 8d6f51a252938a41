/** The paged KV cache as a value: its state, and every operation as a function
    from one state to the next. The class in PagedKvManager.dfy is proved against
    these functions; the other PagedKv files prove what they keep over all runs.

    compute_block_hash is the parameter Config.hash. A node of the prefix tree is
    an index into the arena Cache.tree (index 0 is the root), so that two holders
    of one node see the same children. The LRU list has its front at index 0. */
module PagedKv {
  import opened Wrappers
  import opened Sums

  datatype Config = Config(
    blockSize: Pos, totalBlocks: nat, caching: bool,
    maxBatch: nat, maxBlocksPerSeq: nat,
    hash: (seq<int>, nat) -> nat)

  datatype Block = Block(refCount: nat, filled: nat, hash: nat, cached: bool)

  datatype Node = Node(hash: nat, block: int, children: map<nat, nat>)

  datatype Cache = Cache(
    blocks: seq<Block>, free: seq<nat>, lru: seq<nat>,
    tree: seq<Node>, tables: map<nat, seq<nat>>,
    hits: nat, misses: nat, evictions: nat)

  datatype KvError = OutOfPages | NotRegistered | ParentNotFound | OutOfRange

  /** An exception leaves the state it has reached behind. */
  datatype Outcome<+T> = Return(value: T, cache: Cache) | Throw(error: KvError, cache: Cache)

  // ----- Structure: what indexing needs -----

  ghost predicate InRange(s: seq<nat>, n: nat) {
    forall i :: 0 <= i < |s| ==> s[i] < n
  }

  ghost predicate TreeShape(tree: seq<Node>, n: nat) {
    && |tree| > 0
    && (forall i :: 0 < i < |tree| ==> 0 <= tree[i].block < n)
    && (forall i, k :: 0 <= i < |tree| && k in tree[i].children ==> 0 < tree[i].children[k] < |tree|)
  }

  ghost predicate Shape(cfg: Config, c: Cache) {
    && |c.blocks| == cfg.totalBlocks
    && InRange(c.free, cfg.totalBlocks)
    && InRange(c.lru, cfg.totalBlocks)
    && TreeShape(c.tree, cfg.totalBlocks)
    && (forall id :: id in c.tables ==> c.tables[id] != [] && InRange(c.tables[id], cfg.totalBlocks))
    && (forall b :: 0 <= b < |c.blocks| ==> c.blocks[b].filled <= cfg.blockSize)
  }

  /** Stores a page table. */
  function Publish(cfg: Config, c: Cache, id: nat, t: seq<nat>): (c': Cache)
    requires Shape(cfg, c) && t != [] && InRange(t, cfg.totalBlocks)
    ensures Shape(cfg, c') && id in c'.tables
  {
    c.(tables := c.tables[id := t])
  }

  function Init(cfg: Config): (c: Cache)
    ensures Shape(cfg, c)
  {
    Cache(
      seq(cfg.totalBlocks, _ => Block(0, 0, 0, false)),
      seq(cfg.totalBlocks, i requires 0 <= i < cfg.totalBlocks => cfg.totalBlocks - 1 - i),
      [], [Node(0, -1, map[])], map[], 0, 0, 0)
  }

  // ----- The pool of physical blocks -----

  /** Scans the LRU list from the back, below position i. */
  function Victim(cfg: Config, c: Cache, i: nat): (k: Option<nat>)
    requires Shape(cfg, c) && i <= |c.lru|
    ensures k.Some? ==> k.value < i && c.blocks[c.lru[k.value]].refCount == 0
  {
    if i == 0 then None
    else if c.blocks[c.lru[i - 1]].refCount == 0 then Some(i - 1)
    else Victim(cfg, c, i - 1)
  }

  function EvictAt(cfg: Config, c: Cache, k: nat): (c': Cache)
    requires Shape(cfg, c) && k < |c.lru|
    ensures Shape(cfg, c')
  {
    var b := c.lru[k];
    c.(blocks := c.blocks[b := c.blocks[b].(filled := 0, hash := 0, cached := false)],
       lru := c.lru[..k] + c.lru[k + 1..],
       free := c.free + [b],
       evictions := c.evictions + 1)
  }

  function Pop(cfg: Config, c: Cache): (c': Cache)
    requires Shape(cfg, c) && c.free != []
    ensures Shape(cfg, c')
  {
    var b := c.free[|c.free| - 1];
    c.(free := c.free[..|c.free| - 1],
       blocks := c.blocks[b := c.blocks[b].(refCount := 1, filled := 0, cached := false)])
  }

  function Allocate(cfg: Config, c: Cache): (r: Outcome<nat>)
    requires Shape(cfg, c)
    ensures Shape(cfg, r.cache)
    ensures r.Return? ==> r.value < cfg.totalBlocks
    ensures r.cache.tree == c.tree && r.cache.tables == c.tables && r.cache.evictions >= c.evictions
  {
    if c.free != [] then
      Return(c.free[|c.free| - 1], Pop(cfg, c))
    else
      match Victim(cfg, c, |c.lru|)
      case None => Throw(OutOfPages, c)
      case Some(k) => Return(c.lru[k], Pop(cfg, EvictAt(cfg, c, k)))
  }

  function Release(cfg: Config, c: Cache, b: nat): (c': Cache)
    requires Shape(cfg, c)
    ensures Shape(cfg, c')
    ensures c'.tree == c.tree && c'.tables == c.tables
  {
    if b >= cfg.totalBlocks || c.blocks[b].refCount == 0 then c
    else
      var blk := c.blocks[b].(refCount := c.blocks[b].refCount - 1);
      if blk.refCount > 0 then
        c.(blocks := c.blocks[b := blk])
      else if cfg.caching && blk.hash != 0 then
        c.(blocks := c.blocks[b := blk.(cached := true)], lru := [b] + c.lru)
      else
        c.(blocks := c.blocks[b := blk.(filled := 0)], free := c.free + [b])
  }

  function ReleaseAll(cfg: Config, c: Cache, t: seq<nat>): (c': Cache)
    requires Shape(cfg, c)
    ensures Shape(cfg, c')
    ensures c'.tree == c.tree && c'.tables == c.tables
  {
    if t == [] then c else Release(cfg, ReleaseAll(cfg, c, t[..|t| - 1]), t[|t| - 1])
  }

  /** A cache hit takes one more reference and takes the block off the LRU list. */
  function Claim(cfg: Config, c: Cache, b: nat): (c': Cache)
    requires Shape(cfg, c) && b < cfg.totalBlocks
    ensures Shape(cfg, c')
  {
    if c.blocks[b].cached then
      WithoutKeepsRange(c.lru, b, cfg.totalBlocks);
      c.(blocks := c.blocks[b := c.blocks[b].(refCount := c.blocks[b].refCount + 1, cached := false)],
         lru := Without(c.lru, b),
         hits := c.hits + 1)
    else
      c.(blocks := c.blocks[b := c.blocks[b].(refCount := c.blocks[b].refCount + 1)],
         hits := c.hits + 1)
  }

  lemma {:induction false} WithoutKeepsRange(s: seq<nat>, x: nat, n: nat)
    requires InRange(s, n)
    ensures InRange(Without(s, x), n)
  {
    if s != [] && s[0] != x {
      WithoutKeepsRange(s[1..], x, n);
    }
  }

  function ClaimAll(cfg: Config, c: Cache, t: seq<nat>): (c': Cache)
    requires Shape(cfg, c) && InRange(t, cfg.totalBlocks)
    ensures Shape(cfg, c')
    ensures c'.tree == c.tree && c'.tables == c.tables && c'.evictions == c.evictions && c'.free == c.free
  {
    if t == [] then c else Claim(cfg, ClaimAll(cfg, c, t[..|t| - 1]), t[|t| - 1])
  }

  // ----- Prompts as blocks of tokens -----

  /** The full token blocks of a prompt; the remainder modulo the size is its tail. */
  function Chunks(tokens: seq<int>, size: Pos): (r: seq<seq<int>>)
    decreases |tokens|
  {
    if |tokens| < size then [] else [tokens[..size]] + Chunks(tokens[size..], size)
  }

  /** The number of tokens after the last full block. */
  function TailLength(tokens: seq<int>, size: Pos): (n: nat)
    ensures n < size
  {
    |tokens| % size
  }

  /** The hash of the first j blocks, each block hashed with its parent's hash. */
  function Chain(cfg: Config, chunks: seq<seq<int>>, j: nat): nat
    requires j <= |chunks|
  {
    if j == 0 then 0 else cfg.hash(chunks[j - 1], Chain(cfg, chunks, j - 1))
  }

  /** The tree node reached by looking up the first j blocks. */
  function Reach(cfg: Config, tree: seq<Node>, chunks: seq<seq<int>>, j: nat): (r: Option<nat>)
    requires TreeShape(tree, cfg.totalBlocks) && j <= |chunks|
    ensures r.Some? ==> r.value < |tree| && (j > 0 ==> r.value > 0)
  {
    if j == 0 then Some(0)
    else
      match Reach(cfg, tree, chunks, j - 1)
      case None => None
      case Some(n) =>
        var hv := Chain(cfg, chunks, j);
        if hv in tree[n].children then Some(tree[n].children[hv]) else None
  }

  /** How many blocks the lookup loop matches, from block j on. */
  function Matched(cfg: Config, tree: seq<Node>, chunks: seq<seq<int>>, j: nat): (m: nat)
    requires TreeShape(tree, cfg.totalBlocks) && j <= |chunks|
    requires Reach(cfg, tree, chunks, j).Some?
    ensures j <= m <= |chunks|
    ensures Reach(cfg, tree, chunks, m).Some?
    ensures m < |chunks| ==> Reach(cfg, tree, chunks, m + 1).None?
    decreases |chunks| - j
  {
    if j < |chunks| && Reach(cfg, tree, chunks, j + 1).Some? then Matched(cfg, tree, chunks, j + 1) else j
  }

  function HitBlocks(cfg: Config, tree: seq<Node>, chunks: seq<seq<int>>, m: nat): (t: seq<nat>)
    requires TreeShape(tree, cfg.totalBlocks) && m <= |chunks|
    requires Reach(cfg, tree, chunks, m).Some?
    ensures |t| == m && InRange(t, cfg.totalBlocks)
  {
    if m == 0 then []
    else HitBlocks(cfg, tree, chunks, m - 1) + [tree[Reach(cfg, tree, chunks, m).value].block]
  }

  // ----- Registration -----

  datatype Filling = Filling(ok: bool, cache: Cache, table: seq<nat>, node: nat)

  ghost predicate FillShape(cfg: Config, f: Filling) {
    Shape(cfg, f.cache) && InRange(f.table, cfg.totalBlocks) && f.node < |f.cache.tree|
  }

  /** The new node for block b, hung under node n. */
  function AddNode(tree: seq<Node>, n: nat, hv: nat, b: nat): seq<Node>
    requires n < |tree|
  {
    tree[n := tree[n].(children := tree[n].children[hv := |tree|])] + [Node(hv, b, map[])]
  }

  function SetFilled(cfg: Config, c: Cache, b: nat, n: nat): (c': Cache)
    requires Shape(cfg, c) && b < cfg.totalBlocks && n <= cfg.blockSize
    ensures Shape(cfg, c')
  {
    c.(blocks := c.blocks[b := c.blocks[b].(filled := n)])
  }

  /** Records that block b holds a full token block with hash hv. */
  function HashBlock(cfg: Config, c: Cache, b: nat, hv: nat): (c': Cache)
    requires Shape(cfg, c) && b < cfg.totalBlocks
    ensures Shape(cfg, c')
  {
    c.(blocks := c.blocks[b := c.blocks[b].(filled := cfg.blockSize, hash := hv)])
  }

  /** Hangs a node for block b under node n of the prefix tree. */
  function Graft(cfg: Config, c: Cache, n: nat, hv: nat, b: nat): (c': Cache)
    requires Shape(cfg, c) && b < cfg.totalBlocks && n < |c.tree|
    ensures Shape(cfg, c')
  {
    c.(tree := AddNode(c.tree, n, hv, b), misses := c.misses + 1)
  }

  function InsertChunk(cfg: Config, f: Filling, hv: nat): (g: Filling)
    requires FillShape(cfg, f)
    ensures FillShape(cfg, g)
    ensures g.cache.tables == f.cache.tables && g.cache.evictions >= f.cache.evictions
  {
    if !f.ok then f
    else
      match Allocate(cfg, f.cache)
      case Throw(_, c) => f.(ok := false, cache := c)
      case Return(b, c) =>
        Filling(true, Graft(cfg, HashBlock(cfg, c, b, hv), f.node, hv, b), f.table + [b], |c.tree|)
  }

  /** Allocates and hashes the unmatched full blocks lo..hi-1. */
  function FillTo(cfg: Config, chunks: seq<seq<int>>, f: Filling, lo: nat, hi: nat): (g: Filling)
    requires FillShape(cfg, f) && lo <= hi <= |chunks|
    ensures FillShape(cfg, g)
    ensures g.cache.tables == f.cache.tables && g.cache.evictions >= f.cache.evictions
    decreases hi
  {
    if hi == lo then f
    else InsertChunk(cfg, FillTo(cfg, chunks, f, lo, hi - 1), Chain(cfg, chunks, hi))
  }

  function AddTail(cfg: Config, f: Filling, tail: nat): (g: Filling)
    requires FillShape(cfg, f) && tail < cfg.blockSize
    ensures FillShape(cfg, g)
    ensures g.cache.tables == f.cache.tables && g.cache.evictions >= f.cache.evictions
    ensures g.ok ==> g.table != []
  {
    if !f.ok || (tail == 0 && f.table != []) then f
    else
      match Allocate(cfg, f.cache)
      case Throw(_, c) => f.(ok := false, cache := c)
      case Return(b, c) =>
        f.(cache := SetFilled(cfg, c, b, tail), table := f.table + [b])
  }

  function Lookup(cfg: Config, tree: seq<Node>, chunks: seq<seq<int>>): (m: nat)
    requires TreeShape(tree, cfg.totalBlocks)
    ensures m <= |chunks| && Reach(cfg, tree, chunks, m).Some?
  {
    if cfg.caching then Matched(cfg, tree, chunks, 0) else 0
  }

  /** The state of a registration after the lookup loop. */
  function AfterLookup(cfg: Config, c: Cache, chunks: seq<seq<int>>): (f: Filling)
    requires Shape(cfg, c)
    ensures FillShape(cfg, f) && f.ok && f.cache.tables == c.tables && f.cache.evictions == c.evictions
  {
    var m := Lookup(cfg, c.tree, chunks);
    var t := HitBlocks(cfg, c.tree, chunks, m);
    Filling(true, ClaimAll(cfg, c, t), t, Reach(cfg, c.tree, chunks, m).value)
  }

  /** The part of a registration before the tail block. */
  function Placed(cfg: Config, c: Cache, prompt: seq<int>): (f: Filling)
    requires Shape(cfg, c)
    ensures FillShape(cfg, f) && f.cache.tables == c.tables && f.cache.evictions >= c.evictions
  {
    var q := Chunks(prompt, cfg.blockSize);
    FillTo(cfg, q, AfterLookup(cfg, c, q), Lookup(cfg, c.tree, q), |q|)
  }

  /** The state of a registration just before the page table is published. */
  function Prepared(cfg: Config, c: Cache, prompt: seq<int>): (g: Filling)
    requires Shape(cfg, c)
    ensures FillShape(cfg, g) && g.cache.tables == c.tables && g.cache.evictions >= c.evictions
    ensures g.ok ==> g.table != []
  {
    AddTail(cfg, Placed(cfg, c, prompt), TailLength(prompt, cfg.blockSize))
  }

  function TokensIn(blocks: nat, size: Pos): nat {
    blocks * size
  }

  function Register(cfg: Config, c: Cache, id: nat, prompt: seq<int>): (r: Outcome<nat>)
    requires Shape(cfg, c)
    ensures Shape(cfg, r.cache) && r.cache.evictions >= c.evictions
  {
    if id in c.tables then Return(0, c)
    else
      var g := Prepared(cfg, c, prompt);
      if !g.ok then Throw(OutOfPages, g.cache)
      else
        Return(TokensIn(Lookup(cfg, c.tree, Chunks(prompt, cfg.blockSize)), cfg.blockSize),
               Publish(cfg, g.cache, id, g.table))
  }

  // ----- The other operations -----

  function PushBlock(cfg: Config, c: Cache, id: nat, b: nat): (c': Cache)
    requires Shape(cfg, c) && id in c.tables && b < cfg.totalBlocks
    ensures Shape(cfg, c') && id in c'.tables
  {
    Publish(cfg, c, id, c.tables[id] + [b])
  }

  /** One more block, holding the given number of tokens, for a page table. */
  function Grow(cfg: Config, c: Cache, id: nat, added: nat): (r: Outcome<nat>)
    requires Shape(cfg, c) && id in c.tables && added <= cfg.blockSize
    ensures Shape(cfg, r.cache) && id in r.cache.tables && r.cache.evictions >= c.evictions
    ensures r.Return? ==> r.value < cfg.totalBlocks
  {
    match Allocate(cfg, c)
    case Throw(e, c1) => Throw(e, c1)
    case Return(b, c1) => Return(b, PushBlock(cfg, SetFilled(cfg, c1, b, added), id, b))
  }

  /** Adds blocks to a page table until no token remains. */
  function Extend(cfg: Config, c: Cache, id: nat, remaining: nat): (r: Outcome<()>)
    requires Shape(cfg, c) && id in c.tables
    ensures Shape(cfg, r.cache) && r.cache.evictions >= c.evictions
    decreases remaining
  {
    if remaining == 0 then Return((), c)
    else
      var added := if remaining < cfg.blockSize then remaining else cfg.blockSize;
      match Grow(cfg, c, id, added)
      case Throw(e, c1) => Throw(e, c1)
      case Return(_, c1) => Extend(cfg, c1, id, remaining - added)
  }

  function Last(t: seq<nat>): nat
    requires t != []
  {
    t[|t| - 1]
  }

  /** The context length that is staged for a sequence, from its last block alone. */
  function ContextLen(cfg: Config, c: Cache, id: nat): nat
    requires Shape(cfg, c) && id in c.tables
  {
    TokensIn(|c.tables[id]| - 1, cfg.blockSize) + c.blocks[Last(c.tables[id])].filled
  }

  /** The free slots of the last block of a sequence. */
  function Room(cfg: Config, c: Cache, id: nat): nat
    requires Shape(cfg, c) && id in c.tables
  {
    cfg.blockSize - c.blocks[Last(c.tables[id])].filled
  }

  function FillLast(cfg: Config, c: Cache, id: nat, n: nat): (c': Cache)
    requires Shape(cfg, c) && id in c.tables && n <= Room(cfg, c, id)
    ensures Shape(cfg, c') && c'.tables == c.tables
  {
    SetFilled(cfg, c, Last(c.tables[id]), c.blocks[Last(c.tables[id])].filled + n)
  }

  function Append(cfg: Config, c: Cache, id: nat, n: nat): (r: Outcome<()>)
    requires Shape(cfg, c)
    ensures Shape(cfg, r.cache) && r.cache.evictions >= c.evictions
  {
    if id !in c.tables then Throw(NotRegistered, c)
    else if n <= Room(cfg, c, id) then Return((), FillLast(cfg, c, id, n))
    else Extend(cfg, FillLast(cfg, c, id, Room(cfg, c, id)), id, n - Room(cfg, c, id))
  }

  function Unregister(cfg: Config, c: Cache, id: nat): (c': Cache)
    requires Shape(cfg, c)
    ensures Shape(cfg, c')
  {
    if id !in c.tables then c
    else
      var c1 := ReleaseAll(cfg, c, c.tables[id]);
      c1.(tables := c1.tables - {id})
  }

  function Retain(cfg: Config, c: Cache, b: nat): (c': Cache)
    requires Shape(cfg, c) && b < cfg.totalBlocks
    ensures Shape(cfg, c')
  {
    c.(blocks := c.blocks[b := c.blocks[b].(refCount := c.blocks[b].refCount + 1)])
  }

  function Share(cfg: Config, c: Cache, t: seq<nat>): (c': Cache)
    requires Shape(cfg, c) && InRange(t, cfg.totalBlocks)
    ensures Shape(cfg, c')
    ensures c'.tables == c.tables
  {
    if t == [] then c else Retain(cfg, Share(cfg, c, t[..|t| - 1]), t[|t| - 1])
  }

  function Fork(cfg: Config, c: Cache, parent: nat, child: nat): (r: Outcome<()>)
    requires Shape(cfg, c)
    ensures Shape(cfg, r.cache)
  {
    if parent !in c.tables then Throw(ParentNotFound, c)
    else
      var c1 := Share(cfg, c, c.tables[parent]);
      Return((), Publish(cfg, c1, child, c.tables[parent]))
  }
}
