/** No two blocks carry the same hash, so sequences share every block they can: two
    tables hold the same block at a position exactly when the prompts agree up to there. */
module PagedKvSharing {
  import opened PagedKv
  import opened PagedKvSound
  import opened PagedKvOps
  import opened PagedKvPrefix
  import opened PagedKvContent
  import opened PagedKvOwnership
  import opened PagedKvRuns
  import opened PagedKvTheorems

  // ----- Every hash is carried by at most one block -----

  /** Each hash that a block carries is in the tree, and no other block carries it. */
  ghost predicate OneHolder(c: Cache) {
    && (forall b :: 0 <= b < |c.blocks| && c.blocks[b].hash != 0 ==> HasHash(c.tree, c.blocks[b].hash))
    && (forall a, b :: 0 <= a < b < |c.blocks| && c.blocks[a].hash != 0 ==> c.blocks[a].hash != c.blocks[b].hash)
  }

  /** Blocks keep their hashes or lose them, and the tree stays. */
  ghost predicate Fewer(c: Cache, c': Cache) {
    && c'.tree == c.tree && |c'.blocks| == |c.blocks|
    && forall b :: 0 <= b < |c.blocks| ==> c'.blocks[b].hash == c.blocks[b].hash || c'.blocks[b].hash == 0
  }

  lemma FewerOne(c: Cache, c': Cache)
    requires OneHolder(c) && Fewer(c, c')
    ensures OneHolder(c')
  {
  }

  lemma FewerTwice(c: Cache, c1: Cache, c2: Cache)
    requires Fewer(c, c1) && Fewer(c1, c2)
    ensures Fewer(c, c2)
  {
  }

  lemma AllocateFewer(cfg: Config, c: Cache)
    requires Shape(cfg, c)
    ensures Fewer(c, Allocate(cfg, c).cache)
  {
    ShapeBlocks(cfg, c);
    forall b | 0 <= b < |c.blocks| {
      AllocateHash(cfg, c, b);
    }
    hide Shape;
  }

  lemma GrowFewer(cfg: Config, c: Cache, id: nat, added: nat)
    requires Shape(cfg, c) && id in c.tables && added <= cfg.blockSize
    ensures Fewer(c, Grow(cfg, c, id, added).cache)
  {
    hide Shape, Allocate;
    AllocateFewer(cfg, c);
    ShapeBlocks(cfg, Allocate(cfg, c).cache);
  }

  lemma {:induction false} ExtendFewer(cfg: Config, c: Cache, id: nat, remaining: nat)
    requires Shape(cfg, c) && id in c.tables
    ensures Fewer(c, Extend(cfg, c, id, remaining).cache)
    decreases remaining
  {
    hide Shape, Grow;
    if remaining > 0 {
      var added := if remaining < cfg.blockSize then remaining else cfg.blockSize;
      GrowFewer(cfg, c, id, added);
      var r := Grow(cfg, c, id, added);
      if r.Return? {
        ExtendFewer(cfg, r.cache, id, remaining - added);
        FewerTwice(c, r.cache, Extend(cfg, c, id, remaining).cache);
      }
    }
  }

  lemma AppendFewer(cfg: Config, c: Cache, id: nat, n: nat)
    requires Shape(cfg, c)
    ensures Fewer(c, Append(cfg, c, id, n).cache)
  {
    hide InRange, TreeShape, Extend;
    if id in c.tables && n > Room(cfg, c, id) {
      var c1 := FillLast(cfg, c, id, Room(cfg, c, id));
      ExtendFewer(cfg, c1, id, n - Room(cfg, c, id));
      FewerTwice(c, c1, Append(cfg, c, id, n).cache);
    }
  }

  lemma SameFewer(c: Cache, c': Cache)
    requires SameHashes(c, c') && c'.tree == c.tree
    ensures Fewer(c, c')
  {
  }

  lemma UnregisterFewer(cfg: Config, c: Cache, id: nat)
    requires Shape(cfg, c)
    ensures Fewer(c, Unregister(cfg, c, id))
  {
    hide Shape;
    if id in c.tables {
      ReleaseAllKeeps(cfg, c, c.tables[id]);
    }
  }

  lemma ForkFewer(cfg: Config, c: Cache, parent: nat, child: nat)
    requires Shape(cfg, c)
    ensures Fewer(c, Fork(cfg, c, parent, child).cache)
  {
    if parent in c.tables {
      ShareKeeps(cfg, c, c.tables[parent]);
    }
  }

  /** A hash that is filed anew is carried by the new block alone. */
  lemma InsertOne(cfg: Config, f: Filling, hv: nat)
    requires FillShape(cfg, f) && OneHolder(f.cache) && !HasHash(f.cache.tree, hv)
    ensures OneHolder(InsertChunk(cfg, f, hv).cache)
  {
    hide Shape, HasHash, Allocate;
    AllocateFewer(cfg, f.cache);
    var r := Allocate(cfg, f.cache);
    FewerOne(f.cache, r.cache);
    if f.ok && r.Return? {
      AddNodeHashes(f.cache.tree, f.node, hv, r.value);
      ShapeBlocks(cfg, r.cache);
      HashedOne(r.cache, r.value, hv, InsertChunk(cfg, f, hv).cache);
    }
  }

  lemma HashedOne(c: Cache, b: nat, hv: nat, c': Cache)
    requires OneHolder(c) && b < |c.blocks| && !HasHash(c.tree, hv) && |c'.blocks| == |c.blocks|
    requires forall x :: HasHash(c'.tree, x) <==> HasHash(c.tree, x) || x == hv
    requires c'.blocks[b].hash == hv && forall a :: 0 <= a < |c.blocks| && a != b ==> c'.blocks[a] == c.blocks[a]
    ensures OneHolder(c')
  {
    hide HasHash;
  }

  lemma {:induction false} FillToOne(cfg: Config, seen: set<seq<seq<int>>>, q: seq<seq<int>>, f: Filling, lo: nat,
                                     hi: nat)
    requires NonZeroHash(cfg) && InjectiveHash(cfg) && FillShape(cfg, f) && FreshFrom(seen, q, lo)
    requires FilledTrie(cfg, f, seen, q, lo) && |f.table| == lo <= hi <= |q| && OneHolder(f.cache)
    ensures OneHolder(FillTo(cfg, q, f, lo, hi).cache)
    decreases hi
  {
    hide NonZeroHash, InjectiveHash, Shape, FreshFrom, OneHolder, InsertChunk, FilledTrie;
    if hi > lo {
      FillToOne(cfg, seen, q, f, lo, hi - 1);
      var g := FillToTrie(cfg, seen, q, f, lo, hi - 1);
      InsertStuck(cfg, g, Chain(cfg, q, hi));
      if g.ok {
        NotFiled(cfg, g, seen, q, lo, hi - 1);
        InsertOne(cfg, g, Chain(cfg, q, hi));
      }
    }
  }

  lemma NotFiled(cfg: Config, f: Filling, seen: set<seq<seq<int>>>, q: seq<seq<int>>, lo: nat, j: nat)
    requires FilledTrie(cfg, f, seen, q, j) && FreshFrom(seen, q, lo) && lo <= j < |q|
    ensures !HasHash(f.cache.tree, Chain(cfg, q, j + 1))
  {
    hide HasHash, SeenPrefix, TreeSound;
  }

  lemma AddTailFewer(cfg: Config, f: Filling, tail: nat)
    requires FillShape(cfg, f) && tail < cfg.blockSize
    ensures Fewer(f.cache, AddTail(cfg, f, tail).cache)
  {
    AllocateFewer(cfg, f.cache);
    hide Shape, Allocate;
  }

  lemma RegisterOne(cfg: Config, c: Cache, seen: set<seq<seq<int>>>, id: nat, prompt: seq<int>)
    requires cfg.caching && NonZeroHash(cfg) && InjectiveHash(cfg) && Shape(cfg, c) && TrieOf(cfg, c.tree, seen)
    requires OneHolder(c) && id !in c.tables
    ensures OneHolder(Register(cfg, c, id, prompt).cache)
  {
    hide NonZeroHash, InjectiveHash, Shape, TrieOf, OneHolder, Chunks, TailLength, AddTail, FillTo, Lookup,
      FilledTrie, FreshFrom, Fewer;
    var q, tail := Chunks(prompt, cfg.blockSize), TailLength(prompt, cfg.blockSize);
    var f, p := AfterLookup(cfg, c, q), Placed(cfg, c, prompt);
    LookupTrie(cfg, c, seen, q);
    TrieShape(cfg, c.tree, seen);
    LookupFresh(cfg, c.tree, seen, q);
    LookupOne(cfg, c, q);
    FillToOne(cfg, seen, q, f, Lookup(cfg, c.tree, q), |q|);
    AddTailFewer(cfg, p, tail);
    FewerOne(p.cache, Prepared(cfg, c, prompt).cache);
    PublishOne(cfg, c, id, prompt);
  }

  lemma TrieShape(cfg: Config, tree: seq<Node>, seen: set<seq<seq<int>>>)
    requires TrieOf(cfg, tree, seen)
    ensures TreeShape(tree, cfg.totalBlocks)
  {
  }

  lemma LookupOne(cfg: Config, c: Cache, q: seq<seq<int>>)
    requires Shape(cfg, c) && OneHolder(c)
    ensures var f := AfterLookup(cfg, c, q); OneHolder(f.cache)
    ensures TreeShape(c.tree, cfg.totalBlocks) && |AfterLookup(cfg, c, q).table| == Lookup(cfg, c.tree, q)
  {
    var f := AfterLookup(cfg, c, q);
    ClaimAllKeeps(cfg, c, f.table);
    SameFewer(c, f.cache);
    FewerOne(c, f.cache);
  }

  lemma PublishOne(cfg: Config, c: Cache, id: nat, prompt: seq<int>)
    requires Shape(cfg, c) && id !in c.tables && OneHolder(Prepared(cfg, c, prompt).cache)
    ensures OneHolder(Register(cfg, c, id, prompt).cache)
  {
    hide Prepared, Shape;
  }

  lemma StepOne(cfg: Config, w: World, op: Op)
    requires cfg.caching && NonZeroHash(cfg) && InjectiveHash(cfg)
    requires Shape(cfg, w.cache) && TrieOf(cfg, w.cache.tree, w.seen) && OneHolder(w.cache)
    ensures OneHolder(Step(cfg, w, op).cache)
  {
    hide NonZeroHash, InjectiveHash, Shape, TrieOf, OneHolder, Fewer, Register, Append, Unregister, Fork;
    match op
    case DoRegister(id, prompt) =>
      if id !in w.cache.tables {
        RegisterOne(cfg, w.cache, w.seen, id, prompt);
      }
    case DoAppend(id, n) =>
      AppendFewer(cfg, w.cache, id, n);
      FewerOne(w.cache, Append(cfg, w.cache, id, n).cache);
    case DoUnregister(id) =>
      UnregisterFewer(cfg, w.cache, id);
      FewerOne(w.cache, Unregister(cfg, w.cache, id));
    case DoFork(parent, child) =>
      ForkFewer(cfg, w.cache, parent, child);
      FewerOne(w.cache, Fork(cfg, w.cache, parent, child).cache);
  }

  lemma InitOne(cfg: Config)
    ensures OneHolder(Init(cfg))
  {
  }

  /** In every run with caching, whatever its lookups walk, no hash is carried by two
      blocks: a token prefix is cached at most once. */
  lemma {:induction false} RunOne(cfg: Config, ops: seq<Op>)
    requires cfg.caching && NonZeroHash(cfg) && InjectiveHash(cfg)
    ensures OneHolder(Run(cfg, ops).cache)
  {
    hide NonZeroHash, InjectiveHash, Shape, OneHolder, TrieOf, Step;
    if ops == [] {
      InitOne(cfg);
    } else {
      var u := ops[..|ops| - 1];
      RunOne(cfg, u);
      RunTrie(cfg, u);
      StepOne(cfg, Run(cfg, u), ops[|ops| - 1]);
    }
  }

  // ----- Sharing -----

  /** Two blocks of sequences that agree up to there carry the same hash. */
  lemma AgreeingBlocks(cfg: Config, c: Cache, prompts: map<nat, seq<int>>, lens: map<nat, nat>,
                       id1: nat, id2: nat, j: nat)
    requires Owned(cfg, c, prompts, lens) && NonZeroHash(cfg) && InjectiveHash(cfg) && OneHolder(c)
    requires id1 in c.tables && id2 in c.tables
    requires Shares(Chunks(prompts[id1], cfg.blockSize), Chunks(prompts[id2], cfg.blockSize), j + 1)
    ensures j < |c.tables[id1]| && j < |c.tables[id2]| && c.tables[id1][j] == c.tables[id2][j]
  {
    OwnedHashes(cfg, c, id1, prompts, lens);
    OwnedHashes(cfg, c, id2, prompts, lens);
    hide Owned, NonZeroHash, InjectiveHash, HasHash, Chunks;
    var q1, q2 := Chunks(prompts[id1], cfg.blockSize), Chunks(prompts[id2], cfg.blockSize);
    ChainInjective(cfg, q1, j + 1, q2, j + 1);
    ChainInjective(cfg, q1, j + 1, q1, 0);
  }

  /** The same position of the same sequence, or the same position inside the full
      blocks on which both prompts agree. */
  ghost predicate Common(cfg: Config, prompts: map<nat, seq<int>>, id1: nat, j1: nat, id2: nat, j2: nat)
    requires id1 in prompts && id2 in prompts
  {
    var n, p1, p2 := TokensIn(j1 + 1, cfg.blockSize), prompts[id1], prompts[id2];
    j1 == j2 && (id1 == id2 || (cfg.caching && n <= |p1| && n <= |p2| && p1[..n] == p2[..n]))
  }

  /** Two table positions hold the same block if and only if they are the same position
      of sequences whose prompts agree on all full blocks up to there, also after
      evictions; a block without a hash is shared only by a fork. */
  lemma SharingIff(cfg: Config, ops: seq<Op>, id1: nat, j1: nat, id2: nat, j2: nat)
    requires NonZeroHash(cfg) && InjectiveHash(cfg) && RunLive(cfg, ops) && RunUnshared(cfg, ops)
    requires NoForks(ops) || HashedAt(cfg, Run(cfg, ops).cache, id1, j1)
    requires var t := Run(cfg, ops).cache.tables;
      id1 in t && j1 < |t[id1]| && id2 in t && j2 < |t[id2]|
    ensures id1 in Run(cfg, ops).prompts && id2 in Run(cfg, ops).prompts
    ensures var w := Run(cfg, ops);
      w.cache.tables[id1][j1] == w.cache.tables[id2][j2] <==> Common(cfg, w.prompts, id1, j1, id2, j2)
  {
    hide Sound, TrieOf, NonZeroHash, InjectiveHash, SeqOk, Run, Chunks, Shares, RunLive, RunUnshared, NoForks,
      OneHolder;
    var w := Run(cfg, ops);
    RunHealthy(cfg, ops);
    if id1 == id2 && j1 == j2 {
    } else if w.cache.tables[id1][j1] == w.cache.tables[id2][j2] {
      SharingIsPrefix(cfg, ops, id1, j1, id2, j2);
    } else if Common(cfg, w.prompts, id1, j1, id2, j2) {
      RunOne(cfg, ops);
      SharesInTokens(w.prompts[id1], w.prompts[id2], cfg.blockSize, j1 + 1);
      AgreeingBlocks(cfg, w.cache, w.prompts, w.lens, id1, id2, j1);
      assert false;
    }
  }
}
