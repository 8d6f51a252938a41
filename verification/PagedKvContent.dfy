/** What the blocks of a sequence hold: live tree nodes, hashes of the prompt's
    token blocks, fill counts and the context length derived from them. */
module PagedKvContent {
  import opened PagedKv
  import opened PagedKvSound
  import opened PagedKvOps
  import opened PagedKvPrefix

  // ----- Live nodes: the block of a node still carries the node's hash -----

  ghost predicate LiveNode(cfg: Config, c: Cache, n: nat)
    requires Shape(cfg, c) && n < |c.tree|
  {
    n > 0 && c.tree[n].hash != 0 && c.blocks[c.tree[n].block].hash == c.tree[n].hash
  }

  ghost predicate Live(cfg: Config, c: Cache)
    requires Shape(cfg, c)
  {
    forall n :: 0 < n < |c.tree| ==> c.tree[n].hash != 0 && c.blocks[c.tree[n].block].hash == c.tree[n].hash
  }

  /** The node reached by looking up the first j blocks is live. */
  ghost predicate LiveAt(cfg: Config, c: Cache, q: seq<seq<int>>, j: nat)
    requires Shape(cfg, c) && j <= |q|
  {
    var r := Reach(cfg, c.tree, q, j); r.Some? && LiveNode(cfg, c, r.value)
  }

  /** Every node that the lookup of a prompt walks is live. */
  ghost predicate WalkLive(cfg: Config, c: Cache, prompt: seq<int>)
    requires Shape(cfg, c)
  {
    var q := Chunks(prompt, cfg.blockSize);
    forall j :: 0 < j <= Lookup(cfg, c.tree, q) ==> LiveAt(cfg, c, q, j)
  }

  /** When all nodes are live, so are those that a lookup walks. */
  lemma LiveWalks(cfg: Config, c: Cache, prompt: seq<int>)
    requires Shape(cfg, c) && Live(cfg, c)
    ensures WalkLive(cfg, c, prompt)
  {
    var q := Chunks(prompt, cfg.blockSize);
    var m := Lookup(cfg, c.tree, q);
    forall j | 0 < j <= m ensures LiveAt(cfg, c, q, j) {
      ReachMonotone(cfg, c.tree, q, j, m);
    }
  }

  lemma {:induction false} HitIsNode(cfg: Config, tree: seq<Node>, q: seq<seq<int>>, m: nat, i: nat)
    requires TreeShape(tree, cfg.totalBlocks) && i < m <= |q| && Reach(cfg, tree, q, m).Some?
    ensures var r := Reach(cfg, tree, q, i + 1);
      r.Some? && HitBlocks(cfg, tree, q, m)[i] == tree[r.value].block
  {
    ReachMonotone(cfg, tree, q, m - 1, m);
    if i < m - 1 {
      HitIsNode(cfg, tree, q, m - 1, i);
    }
  }

  /** A lookup that walks live nodes hits no free block. */
  lemma WalkLiveIsWalkable(cfg: Config, c: Cache, held: multiset<nat>, prompt: seq<int>)
    requires Sound(cfg, c, held) && WalkLive(cfg, c, prompt)
    ensures Walkable(cfg, c, prompt)
  {
    var q := Chunks(prompt, cfg.blockSize);
    var m := Lookup(cfg, c.tree, q);
    forall b | b in Hits(cfg, c, prompt) ensures b !in c.free {
      var i :| 0 <= i < m && HitBlocks(cfg, c.tree, q, m)[i] == b;
      HitIsNode(cfg, c.tree, q, m, i);
      assert LiveAt(cfg, c, q, i + 1);
    }
  }

  /** An eviction keeps all nodes, and exactly those of the evicted block are dead then
      or were before. */
  lemma EvictionKillsNode(cfg: Config, c: Cache, k: nat, n: nat)
    requires Shape(cfg, c) && k < |c.lru| && n < |c.tree|
    ensures EvictAt(cfg, c, k).tree == c.tree
    ensures LiveNode(cfg, EvictAt(cfg, c, k), n) <==> LiveNode(cfg, c, n) && c.tree[n].block != c.lru[k]
  {
  }

  // ----- What the operations leave unchanged -----

  ghost predicate SameHashes(c: Cache, c': Cache) {
    |c.blocks| == |c'.blocks| && forall b :: 0 <= b < |c.blocks| ==> c'.blocks[b].hash == c.blocks[b].hash
  }

  /** Blocks in use keep their contents and their references. */
  ghost predicate InUseKept(c: Cache, c': Cache) {
    && |c.blocks| == |c'.blocks|
    && forall b :: 0 <= b < |c.blocks| && c.blocks[b].refCount > 0 ==>
         && c'.blocks[b].refCount >= c.blocks[b].refCount
         && c'.blocks[b].hash == c.blocks[b].hash
         && c'.blocks[b].filled == c.blocks[b].filled
  }

  lemma {:induction false} ClaimAllKeeps(cfg: Config, c: Cache, t: seq<nat>)
    requires Shape(cfg, c) && InRange(t, cfg.totalBlocks)
    ensures var c' := ClaimAll(cfg, c, t);
      SameHashes(c, c') && InUseKept(c, c') && forall b :: 0 <= b < |c.blocks| ==>
        c'.blocks[b].filled == c.blocks[b].filled && (b !in t ==> c'.blocks[b].refCount == c.blocks[b].refCount)
    decreases |t|
  {
    if t != [] {
      ClaimAllKeeps(cfg, c, t[..|t| - 1]);
      assert t == t[..|t| - 1] + [t[|t| - 1]];
    }
  }

  lemma {:induction false} ReleaseAllKeeps(cfg: Config, c: Cache, t: seq<nat>)
    requires Shape(cfg, c)
    ensures var c' := ReleaseAll(cfg, c, t);
      SameHashes(c, c') && c'.evictions == c.evictions && forall b :: 0 <= b < |c.blocks| ==>
        && c'.blocks[b].refCount <= c.blocks[b].refCount
        && (c'.blocks[b].refCount > 0 ==> c'.blocks[b].filled == c.blocks[b].filled)
    decreases |t|
  {
    if t != [] {
      ReleaseAllKeeps(cfg, c, t[..|t| - 1]);
    }
  }

  lemma {:induction false} ShareKeeps(cfg: Config, c: Cache, t: seq<nat>)
    requires Shape(cfg, c) && InRange(t, cfg.totalBlocks)
    ensures var c' := Share(cfg, c, t);
      SameHashes(c, c') && c'.tree == c.tree && c'.evictions == c.evictions
    decreases |t|
  {
    if t != [] {
      ShareKeeps(cfg, c, t[..|t| - 1]);
    }
  }

  lemma AllocateKeeps(cfg: Config, c: Cache, held: multiset<nat>)
    requires Sound(cfg, c, held)
    ensures var r := Allocate(cfg, c);
      && InUseKept(c, r.cache)
      && (r.cache.evictions == c.evictions ==> SameHashes(c, r.cache))
  {
    AllocateSound(cfg, c, held);
  }

  // ----- Live nodes survive every step that evicts nothing -----

  lemma SameHashesLive(cfg: Config, c: Cache, c': Cache)
    requires Shape(cfg, c) && Shape(cfg, c') && Live(cfg, c) && c'.tree == c.tree && SameHashes(c, c')
    ensures Live(cfg, c')
  {
  }

  lemma InsertChunkLive(cfg: Config, f: Filling, held: multiset<nat>, hv: nat)
    requires FillSound(cfg, f, held) && Live(cfg, f.cache) && hv != 0 && cfg.caching
    ensures var g := InsertChunk(cfg, f, hv);
      g.cache.evictions == f.cache.evictions ==> Live(cfg, g.cache)
  {
    hide Accounted;
    AllocateKeeps(cfg, f.cache, held + multiset(f.table));
    AllocateSound(cfg, f.cache, held + multiset(f.table));
    var r := Allocate(cfg, f.cache);
    if f.ok && r.Return? && r.cache.evictions == f.cache.evictions {
      SameHashesLive(cfg, f.cache, r.cache);
    }
  }

  lemma {:induction false} FillToLive(cfg: Config, q: seq<seq<int>>, f: Filling, held: multiset<nat>, lo: nat, hi: nat)
    requires FillSound(cfg, f, held) && Live(cfg, f.cache) && NonZeroHash(cfg) && cfg.caching && lo <= hi <= |q|
    ensures var g := FillTo(cfg, q, f, lo, hi);
      g.cache.evictions == f.cache.evictions ==> Live(cfg, g.cache)
    decreases hi
  {
    hide Sound, Live;
    if hi > lo {
      FillToLive(cfg, q, f, held, lo, hi - 1);
      FillToSound(cfg, q, f, held, lo, hi - 1);
      var g := FillTo(cfg, q, f, lo, hi - 1);
      if g.cache.evictions == f.cache.evictions {
        InsertChunkLive(cfg, g, held, Chain(cfg, q, hi));
      }
    }
  }

  /** A registration that evicts nothing keeps every node live. */
  lemma RegisterLive(cfg: Config, c: Cache, held: multiset<nat>, id: nat, prompt: seq<int>)
    requires Sound(cfg, c, held) && Live(cfg, c) && NonZeroHash(cfg) && cfg.caching && id !in c.tables
    ensures var c' := Register(cfg, c, id, prompt).cache;
      c'.evictions == c.evictions ==> Live(cfg, c')
  {
    var q := Chunks(prompt, cfg.blockSize);
    var m := Lookup(cfg, c.tree, q);
    var f := AfterLookup(cfg, c, q);
    LiveWalks(cfg, c, prompt);
    WalkLiveIsWalkable(cfg, c, held, prompt);
    ClaimAllSound(cfg, c, held, f.table);
    ClaimAllKeeps(cfg, c, f.table);
    SameHashesLive(cfg, c, f.cache);
    FillToLive(cfg, q, f, held, m, |q|);
    FillToSound(cfg, q, f, held, m, |q|);
    var g := FillTo(cfg, q, f, m, |q|);
    AddTailLive(cfg, g, held, TailLength(prompt, cfg.blockSize));
  }

  lemma AddTailLive(cfg: Config, f: Filling, held: multiset<nat>, tail: nat)
    requires FillSound(cfg, f, held) && tail < cfg.blockSize
    ensures var g := AddTail(cfg, f, tail);
      g.cache.evictions == f.cache.evictions && Live(cfg, f.cache) ==> Live(cfg, g.cache)
  {
    hide Accounted;
    AllocateKeeps(cfg, f.cache, held + multiset(f.table));
  }

  lemma GrowLive(cfg: Config, c: Cache, held: multiset<nat>, id: nat, added: nat)
    requires Sound(cfg, c, held) && Live(cfg, c) && id in c.tables && added <= cfg.blockSize
    ensures var r := Grow(cfg, c, id, added);
      r.cache.evictions == c.evictions ==> Live(cfg, r.cache)
  {
    AllocateKeeps(cfg, c, held);
    var r := Allocate(cfg, c);
    hide Sound;
    if r.Return? && r.cache.evictions == c.evictions {
      SameHashesLive(cfg, c, PushBlock(cfg, SetFilled(cfg, r.cache, r.value, added), id, r.value));
    }
  }

  lemma {:induction false} ExtendLive(cfg: Config, c: Cache, held: multiset<nat>, id: nat, remaining: nat)
    requires Sound(cfg, c, held) && Live(cfg, c) && id in c.tables
    ensures var c' := Extend(cfg, c, id, remaining).cache;
      c'.evictions == c.evictions ==> Live(cfg, c')
    decreases remaining
  {
    hide Live, Shape, Partition, HashRules, Accounted;
    if remaining > 0 {
      var added := if remaining < cfg.blockSize then remaining else cfg.blockSize;
      GrowSound(cfg, c, held, id, added);
      GrowLive(cfg, c, held, id, added);
      var r := Grow(cfg, c, id, added);
      if r.Return? && r.cache.evictions == c.evictions {
        ExtendLive(cfg, r.cache, held, id, remaining - added);
      }
    }
  }

  lemma FillLastLive(cfg: Config, c: Cache, id: nat, n: nat)
    requires Shape(cfg, c) && Live(cfg, c) && id in c.tables && n <= Room(cfg, c, id)
    ensures var c' := FillLast(cfg, c, id, n); c'.evictions == c.evictions && Live(cfg, c')
  {
    SameHashesLive(cfg, c, FillLast(cfg, c, id, n));
  }

  /** An append that evicts nothing keeps every node live. */
  lemma AppendLive(cfg: Config, c: Cache, held: multiset<nat>, id: nat, n: nat)
    requires Sound(cfg, c, held) && Live(cfg, c)
    ensures var c' := Append(cfg, c, id, n).cache;
      c'.evictions == c.evictions ==> Live(cfg, c')
  {
    hide Live, Partition, HashRules, Accounted, InRange, TreeShape;
    if id in c.tables {
      var k := if n <= Room(cfg, c, id) then n else Room(cfg, c, id);
      FillLastSound(cfg, c, held, id, k);
      FillLastLive(cfg, c, id, k);
      if n > k {
        ExtendLive(cfg, FillLast(cfg, c, id, k), held, id, n - k);
      }
    }
  }

  lemma ReleaseLive(cfg: Config, c: Cache, id: nat)
    requires Shape(cfg, c) && Live(cfg, c)
    ensures var c' := Unregister(cfg, c, id); c'.evictions == c.evictions && Live(cfg, c')
  {
    if id in c.tables {
      ReleaseAllKeeps(cfg, c, c.tables[id]);
      SameHashesLive(cfg, c, Unregister(cfg, c, id));
    }
  }

  lemma ForkLive(cfg: Config, c: Cache, parent: nat, child: nat)
    requires Shape(cfg, c) && Live(cfg, c)
    ensures var c' := Fork(cfg, c, parent, child).cache; c'.evictions == c.evictions && Live(cfg, c')
  {
    if parent in c.tables {
      ShareKeeps(cfg, c, c.tables[parent]);
      SameHashesLive(cfg, c, Fork(cfg, c, parent, child).cache);
    }
  }
}
