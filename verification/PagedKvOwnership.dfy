/** Every sequence holds exactly the blocks of its own tokens: full
    blocks, a last block of its own, and a fill total equal to its length. */
module PagedKvOwnership {
  import opened PagedKv
  import opened PagedKvChunks
  import opened PagedKvSound
  import opened PagedKvOps
  import opened PagedKvPrefix
  import opened PagedKvContent

  /** The number of tokens in the blocks of a page table. */
  ghost function Fills(c: Cache, t: seq<nat>): nat
    requires InRange(t, |c.blocks|)
  {
    if t == [] then 0 else Fills(c, t[..|t| - 1]) + c.blocks[t[|t| - 1]].filled
  }

  ghost predicate FullUpTo(cfg: Config, c: Cache, t: seq<nat>, n: int)
    requires InRange(t, |c.blocks|)
  {
    forall j :: 0 <= j < n && j < |t| ==> c.blocks[t[j]].filled == cfg.blockSize
  }

  /** The first blocks carry the chain hashes of q, the others carry none. */
  ghost predicate Hashed(cfg: Config, c: Cache, t: seq<nat>, q: seq<seq<int>>)
    requires InRange(t, |c.blocks|)
  {
    && |q| <= |t|
    && (forall j :: 0 <= j < |q| ==> c.blocks[t[j]].hash == Chain(cfg, q, j + 1))
    && (cfg.caching ==> forall j :: |q| <= j < |t| ==> c.blocks[t[j]].hash == 0)
  }

  ghost predicate SeqOk(cfg: Config, c: Cache, t: seq<nat>, prompt: seq<int>, len: nat) {
    && InRange(t, |c.blocks|)
    && FullUpTo(cfg, c, t, |t| - 1)
    && Hashed(cfg, c, t, Chunks(prompt, cfg.blockSize))
    && Fills(c, t) == len
    && (len > 0 && t != [] ==> c.blocks[t[|t| - 1]].filled > 0)
  }

  /** A block that carries no hash has at most one holder. */
  ghost predicate Solo(cfg: Config, c: Cache) {
    forall b :: 0 <= b < |c.blocks| && (cfg.caching ==> c.blocks[b].hash == 0) ==> c.blocks[b].refCount <= 1
  }

  ghost predicate Owned(cfg: Config, c: Cache, prompts: map<nat, seq<int>>, lens: map<nat, nat>) {
    && prompts.Keys == c.tables.Keys == lens.Keys
    && forall id :: id in c.tables ==> SeqOk(cfg, c, c.tables[id], prompts[id], lens[id])
  }

  /** The cache is fit for the lookup of a prompt: nothing to ask when caching is off. */
  ghost predicate Fit(cfg: Config, c: Cache, prompt: seq<int>) {
    Shape(cfg, c) && (cfg.caching ==> NonZeroHash(cfg) && TreeSound(cfg, c.tree) && WalkLive(cfg, c, prompt))
  }

  // ----- Frames -----

  ghost predicate Untouched(c: Cache, c': Cache, t: seq<nat>) {
    && InRange(t, |c.blocks|) && |c'.blocks| == |c.blocks|
    && forall j :: 0 <= j < |t| ==>
         c'.blocks[t[j]].hash == c.blocks[t[j]].hash && c'.blocks[t[j]].filled == c.blocks[t[j]].filled
  }

  lemma {:induction false} FillsFrame(c: Cache, c': Cache, t: seq<nat>)
    requires Untouched(c, c', t)
    ensures Fills(c', t) == Fills(c, t)
    decreases |t|
  {
    if t != [] {
      FillsFrame(c, c', t[..|t| - 1]);
    }
  }

  lemma SeqOkFrame(cfg: Config, c: Cache, c': Cache, t: seq<nat>, prompt: seq<int>, len: nat)
    requires SeqOk(cfg, c, t, prompt, len) && Untouched(c, c', t)
    ensures SeqOk(cfg, c', t, prompt, len)
  {
    FillsFrame(c, c', t);
  }

  /** The context length that is computed from the last block alone is the
      number of tokens in all blocks. */
  lemma {:induction false} ContextLength(cfg: Config, c: Cache, t: seq<nat>)
    requires InRange(t, |c.blocks|) && t != [] && FullUpTo(cfg, c, t, |t| - 1)
    ensures Fills(c, t) == (|t| - 1) * cfg.blockSize + c.blocks[t[|t| - 1]].filled
    decreases |t|
  {
    var u := t[..|t| - 1];
    if u != [] {
      ContextLength(cfg, c, u);
      assert u[|u| - 1] == t[|t| - 2];
      assert Fills(c, u) == (|u| - 1) * cfg.blockSize + cfg.blockSize == |u| * cfg.blockSize;
    }
  }

  /** What is staged for a sequence is its recorded length, and the tokens in its blocks. */
  lemma OwnedContext(cfg: Config, c: Cache, prompts: map<nat, seq<int>>, lens: map<nat, nat>, id: nat)
    requires Shape(cfg, c) && Owned(cfg, c, prompts, lens) && id in c.tables
    ensures InRange(c.tables[id], |c.blocks|) && id in lens
    ensures ContextLen(cfg, c, id) == Fills(c, c.tables[id]) == lens[id]
  {
    ContextLength(cfg, c, c.tables[id]);
  }

  // ----- Registration -----

  /** The table holds the first |t| token blocks of q. */
  ghost predicate Carries(cfg: Config, c: Cache, t: seq<nat>, q: seq<seq<int>>) {
    && InRange(t, |c.blocks|) && |t| <= |q|
    && forall i :: 0 <= i < |t| ==>
         c.blocks[t[i]].hash == Chain(cfg, q, i + 1) && c.blocks[t[i]].filled == cfg.blockSize
  }

  lemma CarriesPush(cfg: Config, c: Cache, c': Cache, t: seq<nat>, q: seq<seq<int>>, b: nat)
    requires Carries(cfg, c, t, q) && |t| < |q| && Untouched(c, c', t) && b < |c'.blocks|
    requires c'.blocks[b].hash == Chain(cfg, q, |t| + 1) && c'.blocks[b].filled == cfg.blockSize
    ensures Carries(cfg, c', t + [b], q)
  {
  }

  lemma {:induction false} ReachHash(cfg: Config, tree: seq<Node>, q: seq<seq<int>>, j: nat)
    requires TreeSound(cfg, tree) && j <= |q|
    ensures var r := Reach(cfg, tree, q, j); r.Some? ==> tree[r.value].hash == Chain(cfg, q, j)
  {
  }

  /** A hit block carries the chain hash of its prefix exactly if its node is live. */
  lemma HitCarriesIff(cfg: Config, c: Cache, q: seq<seq<int>>, i: nat)
    requires Shape(cfg, c) && NonZeroHash(cfg) && TreeSound(cfg, c.tree) && i < Lookup(cfg, c.tree, q)
    ensures var b := HitBlocks(cfg, c.tree, q, Lookup(cfg, c.tree, q))[i];
      b < |c.blocks| && (c.blocks[b].hash == Chain(cfg, q, i + 1) <==> LiveAt(cfg, c, q, i + 1))
    ensures Chain(cfg, q, i + 1) != 0
  {
    HitIsNode(cfg, c.tree, q, Lookup(cfg, c.tree, q), i);
    ReachHash(cfg, c.tree, q, i + 1);
  }

  lemma HitsRange(cfg: Config, c: Cache, prompt: seq<int>)
    requires Shape(cfg, c)
    ensures InRange(Hits(cfg, c, prompt), |c.blocks|)
    ensures TreeShape(c.tree, cfg.totalBlocks)
      && |Hits(cfg, c, prompt)| == Lookup(cfg, c.tree, Chunks(prompt, cfg.blockSize))
  {
  }

  /** The walked nodes are live if and only if the hit blocks carry the chain hashes of
      the prompt. */
  lemma WalkLiveIff(cfg: Config, c: Cache, prompt: seq<int>)
    requires Shape(cfg, c) && NonZeroHash(cfg) && TreeSound(cfg, c.tree)
    ensures var q, t := Chunks(prompt, cfg.blockSize), Hits(cfg, c, prompt);
      |t| <= |q| && InRange(t, |c.blocks|) &&
      (WalkLive(cfg, c, prompt) <==> forall i :: 0 <= i < |t| ==> c.blocks[t[i]].hash == Chain(cfg, q, i + 1))
  {
    hide LiveAt, Shape, TreeSound, NonZeroHash, Chain, Chunks;
    HitsRange(cfg, c, prompt);
    var q, t := Chunks(prompt, cfg.blockSize), Hits(cfg, c, prompt);
    forall i | 0 <= i < |t| ensures c.blocks[t[i]].hash == Chain(cfg, q, i + 1) <==> LiveAt(cfg, c, q, i + 1) {
      HitCarriesIff(cfg, c, q, i);
    }
    if forall i :: 0 <= i < |t| ==> c.blocks[t[i]].hash == Chain(cfg, q, i + 1) {
      forall j | 0 < j <= |t| ensures LiveAt(cfg, c, q, j) {
        assert c.blocks[t[j - 1]].hash == Chain(cfg, q, j - 1 + 1);
      }
    }
  }

  /** The hit blocks carry the matched prefix; claiming them needs no copy. */
  lemma LookupCarries(cfg: Config, c: Cache, held: multiset<nat>, prompt: seq<int>)
    requires Sound(cfg, c, held) && Fit(cfg, c, prompt)
    ensures var q := Chunks(prompt, cfg.blockSize); var f := AfterLookup(cfg, c, q);
      Carries(cfg, f.cache, f.table, q) && (Solo(cfg, c) ==> Solo(cfg, f.cache)) && InUseKept(c, f.cache)
  {
    var q := Chunks(prompt, cfg.blockSize);
    var m := Lookup(cfg, c.tree, q);
    var t := HitBlocks(cfg, c.tree, q, m);
    forall i | 0 <= i < m
      ensures cfg.caching && c.blocks[t[i]].hash == Chain(cfg, q, i + 1) != 0 && c.blocks[t[i]].filled == cfg.blockSize
    {
      assert LiveAt(cfg, c, q, i + 1);
      HitCarriesIff(cfg, c, q, i);
    }
    ClaimAllKeeps(cfg, c, t);
  }

  lemma HeldInUse(cfg: Config, c: Cache, held: multiset<nat>, t: seq<nat>)
    requires Sound(cfg, c, held + multiset(t)) && InRange(t, cfg.totalBlocks)
    ensures forall i :: 0 <= i < |t| ==> c.blocks[t[i]].refCount > 0
  {
    forall i | 0 <= i < |t| ensures c.blocks[t[i]].refCount > 0 {
      assert t[i] in multiset(t);
    }
  }

  lemma InsertKeeps(cfg: Config, f: Filling, held: multiset<nat>, hv: nat)
    requires FillSound(cfg, f, held)
    ensures InUseKept(f.cache, InsertChunk(cfg, f, hv).cache)
    ensures Solo(cfg, f.cache) ==> Solo(cfg, InsertChunk(cfg, f, hv).cache)
  {
    AllocateSound(cfg, f.cache, held + multiset(f.table));
    hide Sound, TreeShape, InRange;
  }

  lemma InsertCarries(cfg: Config, f: Filling, held: multiset<nat>, q: seq<seq<int>>)
    requires FillSound(cfg, f, held) && Carries(cfg, f.cache, f.table, q) && f.ok && |f.table| < |q|
    ensures var g := InsertChunk(cfg, f, Chain(cfg, q, |f.table| + 1));
      && Carries(cfg, g.cache, g.table, q)
      && |g.table| == |f.table| + if g.ok then 1 else 0
  {
    var g := InsertChunk(cfg, f, Chain(cfg, q, |f.table| + 1));
    HeldInUse(cfg, f.cache, held, f.table);
    InsertKeeps(cfg, f, held, Chain(cfg, q, |f.table| + 1));
    hide Sound, TreeShape;
    if g.ok {
      CarriesPush(cfg, f.cache, g.cache, f.table, q, Allocate(cfg, f.cache).value);
    } else {
      AllocateThrows(cfg, f.cache);
    }
  }

  lemma AllocateThrows(cfg: Config, c: Cache)
    requires Shape(cfg, c)
    ensures Allocate(cfg, c).Throw? ==> Allocate(cfg, c).cache == c
  {
  }

  lemma {:induction false} FillToCarries(cfg: Config, q: seq<seq<int>>, f: Filling, held: multiset<nat>, lo: nat,
                                         hi: nat)
    returns (g: Filling)
    requires FillSound(cfg, f, held) && Carries(cfg, f.cache, f.table, q)
    requires f.ok && |f.table| == lo <= hi <= |q|
    ensures g == FillTo(cfg, q, f, lo, hi) && FillSound(cfg, g, held)
    ensures InUseKept(f.cache, g.cache) && (Solo(cfg, f.cache) ==> Solo(cfg, g.cache))
    ensures Carries(cfg, g.cache, g.table, q) && (g.ok ==> |g.table| == hi)
    decreases hi
  {
    hide FillSound, Carries, Solo, Shape, Chain, InsertChunk;
    if hi == lo {
      g := f;
    } else {
      g := FillToCarries(cfg, q, f, held, lo, hi - 1);
      FillSoundShape(cfg, g, held);
      InsertStuck(cfg, g, Chain(cfg, q, hi));
      if g.ok {
        InsertCarries(cfg, g, held, q);
        InsertKeeps(cfg, g, held, Chain(cfg, q, hi));
        InsertChunkSound(cfg, g, held, Chain(cfg, q, hi));
        g := InsertChunk(cfg, g, Chain(cfg, q, hi));
      }
    }
  }

  lemma FillSoundShape(cfg: Config, f: Filling, held: multiset<nat>)
    requires FillSound(cfg, f, held)
    ensures FillShape(cfg, f)
  {
  }

  lemma {:induction false} FillsFull(cfg: Config, c: Cache, t: seq<nat>)
    requires InRange(t, |c.blocks|) && FullUpTo(cfg, c, t, |t|)
    ensures Fills(c, t) == |t| * cfg.blockSize
    decreases |t|
  {
    if t != [] {
      FillsFull(cfg, c, t[..|t| - 1]);
    }
  }

  /** Full blocks and the tail make up the prompt. */
  lemma FullBlocksAndTail(cfg: Config, c: Cache, t: seq<nat>, prompt: seq<int>)
    requires Carries(cfg, c, t, Chunks(prompt, cfg.blockSize)) && |t| == |Chunks(prompt, cfg.blockSize)|
    ensures Fills(c, t) + TailLength(prompt, cfg.blockSize) == |prompt|
  {
    ChunkCount(prompt, cfg.blockSize);
    FillsFull(cfg, c, t);
  }

  lemma FillsPush(c: Cache, t: seq<nat>, b: nat)
    requires InRange(t, |c.blocks|) && b < |c.blocks|
    ensures Fills(c, t + [b]) == Fills(c, t) + c.blocks[b].filled
  {
    assert (t + [b])[..|t|] == t;
  }

  lemma PushTailOk(cfg: Config, c: Cache, c': Cache, t: seq<nat>, b: nat, prompt: seq<int>)
    requires Carries(cfg, c, t, Chunks(prompt, cfg.blockSize)) && |t| == |Chunks(prompt, cfg.blockSize)|
    requires Untouched(c, c', t) && b < |c'.blocks|
    requires (cfg.caching ==> c'.blocks[b].hash == 0) && c'.blocks[b].filled == TailLength(prompt, cfg.blockSize)
    requires TailLength(prompt, cfg.blockSize) > 0 || t == []
    ensures SeqOk(cfg, c', t + [b], prompt, |prompt|)
  {
    ChunkCount(prompt, cfg.blockSize);
    FullBlocksAndTail(cfg, c, t, prompt);
    FillsFrame(c, c', t);
    FillsPush(c', t, b);
  }

  lemma AddTailKeeps(cfg: Config, f: Filling, held: multiset<nat>, tail: nat)
    requires FillSound(cfg, f, held) && tail < cfg.blockSize
    ensures InUseKept(f.cache, AddTail(cfg, f, tail).cache)
    ensures Solo(cfg, f.cache) ==> Solo(cfg, AddTail(cfg, f, tail).cache)
  {
    AllocateSound(cfg, f.cache, held + multiset(f.table));
    hide Sound, TreeShape, InRange;
  }

  lemma AddTailOk(cfg: Config, f: Filling, held: multiset<nat>, prompt: seq<int>)
    returns (g: Filling)
    requires FillSound(cfg, f, held) && f.ok
    requires Carries(cfg, f.cache, f.table, Chunks(prompt, cfg.blockSize))
    requires |f.table| == |Chunks(prompt, cfg.blockSize)|
    ensures g == AddTail(cfg, f, TailLength(prompt, cfg.blockSize))
    ensures g.ok ==> SeqOk(cfg, g.cache, g.table, prompt, |prompt|)
  {
    hide TailLength, Sound, SeqOk, Allocate, Chunks, TreeShape, Carries;
    g := AddTail(cfg, f, TailLength(prompt, cfg.blockSize));
    if g.ok {
      AddTailKeeps(cfg, f, held, TailLength(prompt, cfg.blockSize));
      if g.table == f.table {
        FullSeqOk(cfg, f.cache, f.table, prompt);
      } else {
        TailBlock(cfg, f, held, prompt);
        HeldUntouched(cfg, f.cache, held, f.table, g.cache);
        PushTailOk(cfg, f.cache, g.cache, f.table, g.table[|f.table|], prompt);
      }
    }
  }

  lemma FullSeqOk(cfg: Config, c: Cache, t: seq<nat>, prompt: seq<int>)
    requires Carries(cfg, c, t, Chunks(prompt, cfg.blockSize)) && |t| == |Chunks(prompt, cfg.blockSize)|
    requires TailLength(prompt, cfg.blockSize) == 0
    ensures SeqOk(cfg, c, t, prompt, |prompt|)
  {
    FullBlocksAndTail(cfg, c, t, prompt);
  }

  lemma HeldUntouched(cfg: Config, c: Cache, held: multiset<nat>, t: seq<nat>, c': Cache)
    requires Sound(cfg, c, held + multiset(t)) && InRange(t, cfg.totalBlocks) && InUseKept(c, c')
    ensures Untouched(c, c', t)
  {
    HeldInUse(cfg, c, held, t);
    hide Partition, HashRules, Accounted, TreeShape;
  }

  lemma TailBlock(cfg: Config, f: Filling, held: multiset<nat>, prompt: seq<int>)
    requires FillSound(cfg, f, held) && f.ok
    ensures var g := AddTail(cfg, f, TailLength(prompt, cfg.blockSize));
      g.ok && g.table != f.table ==>
        && |g.table| == |f.table| + 1 && g.table == f.table + [g.table[|f.table|]]
        && (cfg.caching ==> g.cache.blocks[g.table[|f.table|]].hash == 0)
        && g.cache.blocks[g.table[|f.table|]].filled == TailLength(prompt, cfg.blockSize)
        && (TailLength(prompt, cfg.blockSize) > 0 || f.table == [])
  {
    AllocateSound(cfg, f.cache, held + multiset(f.table));
    hide Sound, TailLength;
  }

  lemma KeptTwice(c: Cache, c1: Cache, c2: Cache)
    requires InUseKept(c, c1) && InUseKept(c1, c2)
    ensures InUseKept(c, c2)
  {
  }

  lemma PlacedOk(cfg: Config, c: Cache, held: multiset<nat>, prompt: seq<int>)
    requires Sound(cfg, c, held) && Fit(cfg, c, prompt) && Walkable(cfg, c, prompt)
    ensures var q, g := Chunks(prompt, cfg.blockSize), Placed(cfg, c, prompt);
      && InUseKept(c, g.cache) && (Solo(cfg, c) ==> Solo(cfg, g.cache))
      && Carries(cfg, g.cache, g.table, q) && (g.ok ==> |g.table| == |q|)
  {
    hide Fit, Solo, Carries, Sound, FillSound, Walkable, Chunks, Shape, InUseKept;
    SoundShape(cfg, c, held);
    var q := Chunks(prompt, cfg.blockSize);
    LookupCarries(cfg, c, held, prompt);
    AfterLookupSound(cfg, c, held, prompt);
    var g := FillToCarries(cfg, q, AfterLookup(cfg, c, q), held, Lookup(cfg, c.tree, q), |q|);
    KeptTwice(c, AfterLookup(cfg, c, q).cache, g.cache);
  }

  /** A registration that does not throw builds a table for exactly its prompt and
      leaves the contents of all blocks in use alone. */
  lemma PreparedOk(cfg: Config, c: Cache, held: multiset<nat>, prompt: seq<int>)
    returns (g: Filling)
    requires Sound(cfg, c, held) && Fit(cfg, c, prompt) && Walkable(cfg, c, prompt)
    ensures g == Prepared(cfg, c, prompt)
    ensures InUseKept(c, g.cache) && (Solo(cfg, c) ==> Solo(cfg, g.cache))
    ensures g.ok ==> SeqOk(cfg, g.cache, g.table, prompt, |prompt|)
  {
    hide Sound, FillSound, SeqOk, Solo, Carries, Fit, Walkable, Placed, TailLength;
    SoundShape(cfg, c, held);
    PlacedOk(cfg, c, held, prompt);
    PlacedSound(cfg, c, held, prompt);
    g := Placed(cfg, c, prompt);
    AddTailKeeps(cfg, g, held, TailLength(prompt, cfg.blockSize));
    if g.ok {
      g := AddTailOk(cfg, g, held, prompt);
    }
  }

  /** A block in a page table is in use. */
  lemma TableInUse(cfg: Config, c: Cache, held: multiset<nat>, id: nat)
    requires Sound(cfg, c, held) && id in c.tables
    ensures forall i :: 0 <= i < |c.tables[id]| ==> c.blocks[c.tables[id][i]].refCount > 0
  {
    var t := c.tables[id];
    forall i | 0 <= i < |t| ensures c.blocks[t[i]].refCount > 0 {
      OccPositive(c.tables, id, t[i]);
    }
  }

  lemma KeptUntouched(cfg: Config, c: Cache, held: multiset<nat>, c': Cache, id: nat)
    requires Sound(cfg, c, held) && id in c.tables && InUseKept(c, c')
    ensures Untouched(c, c', c.tables[id])
  {
    TableInUse(cfg, c, held, id);
  }

  /** Replacing one table and touching no block of the others. */
  lemma OwnedUpdate(cfg: Config, c: Cache, c': Cache, id: nat, prompt: seq<int>, len: nat,
                    prompts: map<nat, seq<int>>, lens: map<nat, nat>)
    requires Owned(cfg, c, prompts, lens)
    requires id in c'.tables && SeqOk(cfg, c', c'.tables[id], prompt, len)
    requires c'.tables == c.tables[id := c'.tables[id]]
    requires forall k :: k in c.tables && k != id ==> Untouched(c, c', c.tables[k])
    ensures Owned(cfg, c', prompts[id := prompt], lens[id := len])
  {
    forall k | k in c'.tables && k != id ensures SeqOk(cfg, c', c'.tables[k], prompts[k], lens[k]) {
      SeqOkFrame(cfg, c, c', c.tables[k], prompts[k], lens[k]);
    }
    hide SeqOk, Untouched;
  }

  lemma KeptOwned(cfg: Config, c: Cache, held: multiset<nat>, c': Cache,
                  prompts: map<nat, seq<int>>, lens: map<nat, nat>)
    requires Sound(cfg, c, held) && Owned(cfg, c, prompts, lens)
    requires InUseKept(c, c') && c'.tables == c.tables
    ensures Owned(cfg, c', prompts, lens)
  {
    forall k | k in c.tables ensures SeqOk(cfg, c', c.tables[k], prompts[k], lens[k]) {
      KeptUntouched(cfg, c, held, c', k);
      SeqOkFrame(cfg, c, c', c.tables[k], prompts[k], lens[k]);
    }
    hide Sound, SeqOk, InUseKept;
  }

  lemma PublishOwned(cfg: Config, c: Cache, id: nat, t: seq<nat>, prompt: seq<int>, len: nat,
                     prompts: map<nat, seq<int>>, lens: map<nat, nat>)
    requires Shape(cfg, c) && t != [] && InRange(t, cfg.totalBlocks)
    requires Owned(cfg, c, prompts, lens) && SeqOk(cfg, c, t, prompt, len)
    ensures Owned(cfg, Publish(cfg, c, id, t), prompts[id := prompt], lens[id := len])
  {
    var c' := Publish(cfg, c, id, t);
    SeqOkFrame(cfg, c, c', t, prompt, len);
    OwnedUpdate(cfg, c, c', id, prompt, len, prompts, lens);
  }

  /** A registration that walks live nodes yields a table for its prompt and disturbs
      no other sequence. */
  lemma RegisterOwned(cfg: Config, c: Cache, held: multiset<nat>, id: nat, prompt: seq<int>,
                      prompts: map<nat, seq<int>>, lens: map<nat, nat>)
    requires Sound(cfg, c, held) && Fit(cfg, c, prompt) && Owned(cfg, c, prompts, lens)
    requires Walkable(cfg, c, prompt) && id !in c.tables
    ensures var r := Register(cfg, c, id, prompt);
      && (Solo(cfg, c) ==> Solo(cfg, r.cache))
      && if r.Return? then Owned(cfg, r.cache, prompts[id := prompt], lens[id := |prompt|])
         else Owned(cfg, r.cache, prompts, lens)
  {
    hide Sound, Fit, Walkable, Owned, SeqOk;
    var g := PreparedOk(cfg, c, held, prompt);
    KeptOwned(cfg, c, held, g.cache, prompts, lens);
    if g.ok {
      PublishOwned(cfg, g.cache, id, g.table, prompt, |prompt|, prompts, lens);
    }
  }

  // ----- What a stale node breaks -----

  lemma {:induction false} FillToKeeps(cfg: Config, q: seq<seq<int>>, f: Filling, held: multiset<nat>, lo: nat, hi: nat)
    requires FillSound(cfg, f, held) && lo <= hi <= |q|
    ensures var g := FillTo(cfg, q, f, lo, hi);
      InUseKept(f.cache, g.cache) && |f.table| <= |g.table| && g.table[..|f.table|] == f.table
    decreases hi
  {
    hide FillSound, Shape, Chain, InsertChunk;
    FillSoundShape(cfg, f, held);
    if hi > lo {
      var g := FillTo(cfg, q, f, lo, hi - 1);
      FillToKeeps(cfg, q, f, held, lo, hi - 1);
      FillToSound(cfg, q, f, held, lo, hi - 1);
      FillSoundShape(cfg, g, held);
      InsertKeeps(cfg, g, held, Chain(cfg, q, hi));
      InsertExtends(cfg, g, Chain(cfg, q, hi));
    }
  }

  lemma InsertExtends(cfg: Config, f: Filling, hv: nat)
    requires FillShape(cfg, f)
    ensures var g := InsertChunk(cfg, f, hv); |f.table| <= |g.table| && g.table[..|f.table|] == f.table
  {
  }

  lemma AddTailExtends(cfg: Config, f: Filling, tail: nat)
    requires FillShape(cfg, f) && tail < cfg.blockSize
    ensures var g := AddTail(cfg, f, tail); |f.table| <= |g.table| && g.table[..|f.table|] == f.table
  {
  }

  /** A table that is published starts with the hit blocks, whose hashes have not
      changed since the lookup. */
  lemma HitsPublished(cfg: Config, c: Cache, held: multiset<nat>, prompt: seq<int>)
    requires Sound(cfg, c, held) && Walkable(cfg, c, prompt)
    ensures var t, g := Hits(cfg, c, prompt), Prepared(cfg, c, prompt);
      && |t| <= |g.table| && g.table[..|t|] == t && |c.blocks| == |g.cache.blocks| == cfg.totalBlocks
      && forall i :: 0 <= i < |t| ==> g.cache.blocks[t[i]].hash == c.blocks[t[i]].hash
  {
    hide Sound, FillSound, Walkable, Chunks, InUseKept, SameHashes, Allocate, AddTail, TailLength, FillTo;
    SoundShape(cfg, c, held);
    var q := Chunks(prompt, cfg.blockSize);
    var f, p := AfterLookup(cfg, c, q), Placed(cfg, c, prompt);
    AfterLookupSound(cfg, c, held, prompt);
    PlacedSound(cfg, c, held, prompt);
    FillToKeeps(cfg, q, f, held, Lookup(cfg, c.tree, q), |q|);
    AddTailKeeps(cfg, p, held, TailLength(prompt, cfg.blockSize));
    AddTailExtends(cfg, p, TailLength(prompt, cfg.blockSize));
    ClaimAllKeeps(cfg, c, f.table);
    ClaimedKept(cfg, c, held, prompt, p.cache, Prepared(cfg, c, prompt).cache);
  }

  lemma SoundShape(cfg: Config, c: Cache, held: multiset<nat>)
    requires Sound(cfg, c, held)
    ensures Shape(cfg, c)
  {
  }

  lemma ClaimedKept(cfg: Config, c: Cache, held: multiset<nat>, prompt: seq<int>, c1: Cache, c2: Cache)
    requires Sound(cfg, c, held) && Walkable(cfg, c, prompt)
    requires var f := AfterLookup(cfg, c, Chunks(prompt, cfg.blockSize));
      SameHashes(c, f.cache) && InUseKept(f.cache, c1) && InUseKept(c1, c2)
    ensures var t := Hits(cfg, c, prompt);
      && |c.blocks| == |c2.blocks| && InRange(t, |c.blocks|)
      && forall i :: 0 <= i < |t| ==> c2.blocks[t[i]].hash == c.blocks[t[i]].hash
  {
    AfterLookupSound(cfg, c, held, prompt);
    var f := AfterLookup(cfg, c, Chunks(prompt, cfg.blockSize));
    HeldInUse(cfg, f.cache, held, f.table);
    hide Sound, FillSound, Walkable, Chunks;
  }

  // ----- What a hit on a free block breaks -----

  /** Block b carries no hash, or that of a prefix of q longer than m blocks. */
  ghost predicate Deeper(cfg: Config, c: Cache, q: seq<seq<int>>, m: nat, b: nat) {
    && b < |c.blocks|
    && (c.blocks[b].hash == 0 || exists j :: m < j <= |q| && c.blocks[b].hash == Chain(cfg, q, j))
  }

  lemma AllocateHash(cfg: Config, c: Cache, b: nat)
    requires Shape(cfg, c) && b < |c.blocks|
    ensures var c' := Allocate(cfg, c).cache;
      |c'.blocks| == |c.blocks| && (c'.blocks[b].hash == c.blocks[b].hash || c'.blocks[b].hash == 0)
  {
  }

  lemma InsertDeeper(cfg: Config, f: Filling, q: seq<seq<int>>, m: nat, b: nat, hi: nat)
    requires FillShape(cfg, f) && Deeper(cfg, f.cache, q, m, b) && m < hi <= |q|
    ensures Deeper(cfg, InsertChunk(cfg, f, Chain(cfg, q, hi)).cache, q, m, b)
  {
    hide Shape, Chain;
    ShapeBlocks(cfg, f.cache);
    AllocateHash(cfg, f.cache, b);
  }

  lemma ShapeBlocks(cfg: Config, c: Cache)
    requires Shape(cfg, c)
    ensures |c.blocks| == cfg.totalBlocks
  {
  }

  lemma AddTailDeeper(cfg: Config, f: Filling, q: seq<seq<int>>, m: nat, b: nat, tail: nat)
    requires FillShape(cfg, f) && Deeper(cfg, f.cache, q, m, b) && tail < cfg.blockSize
    ensures Deeper(cfg, AddTail(cfg, f, tail).cache, q, m, b)
  {
    hide Chain;
    AllocateHash(cfg, f.cache, b);
  }

  lemma {:induction false} FillToDeeper(cfg: Config, q: seq<seq<int>>, f: Filling, m: nat, b: nat, hi: nat)
    requires FillShape(cfg, f) && Deeper(cfg, f.cache, q, m, b) && m <= hi <= |q|
    ensures var g := FillTo(cfg, q, f, m, hi);
      Deeper(cfg, g.cache, q, m, b) && |f.table| <= |g.table| && g.table[..|f.table|] == f.table
    decreases hi
  {
    hide Deeper, Shape, Chain, InsertChunk;
    if hi > m {
      var g := FillTo(cfg, q, f, m, hi - 1);
      FillToDeeper(cfg, q, f, m, b, hi - 1);
      InsertDeeper(cfg, g, q, m, b, hi);
      InsertExtends(cfg, g, Chain(cfg, q, hi));
    }
  }

  /** A free block that was hit is in the table that is published, at the place where it
      was hit, with a hash that is not the one of that place. */
  lemma FreeHitPublished(cfg: Config, c: Cache, prompt: seq<int>, i: nat)
    requires Shape(cfg, c) && i < |Hits(cfg, c, prompt)|
    requires Hits(cfg, c, prompt)[i] < |c.blocks| && c.blocks[Hits(cfg, c, prompt)[i]].hash == 0
    ensures var b, q, g := Hits(cfg, c, prompt)[i], Chunks(prompt, cfg.blockSize), Prepared(cfg, c, prompt);
      && i < |g.table| && g.table[i] == b && Deeper(cfg, g.cache, q, |Hits(cfg, c, prompt)|, b)
  {
    hide Shape, Chunks, Claim, Lookup, AddTail, TailLength, FillTo, Deeper;
    HitsRange(cfg, c, prompt);
    var q, t := Chunks(prompt, cfg.blockSize), Hits(cfg, c, prompt);
    var f, p, tail := AfterLookup(cfg, c, q), Placed(cfg, c, prompt), TailLength(prompt, cfg.blockSize);
    var m := Lookup(cfg, c.tree, q);
    ClaimAllKeeps(cfg, c, t);
    NoHashDeeper(cfg, f.cache, q, m, t[i]);
    FillToDeeper(cfg, q, f, m, t[i], |q|);
    AddTailDeeper(cfg, p, q, m, t[i], tail);
    AddTailExtends(cfg, p, tail);
    assert p.table[i] == p.table[..|t|][i];
    var g := Prepared(cfg, c, prompt);
    assert g.table[i] == g.table[..|p.table|][i];
  }

  lemma NoHashDeeper(cfg: Config, c: Cache, q: seq<seq<int>>, m: nat, b: nat)
    requires b < |c.blocks| && c.blocks[b].hash == 0
    ensures Deeper(cfg, c, q, m, b)
  {
  }

  lemma DeeperIsOther(cfg: Config, c: Cache, q: seq<seq<int>>, m: nat, b: nat, j: nat)
    requires NonZeroHash(cfg) && InjectiveHash(cfg) && Deeper(cfg, c, q, m, b) && 0 < j <= m <= |q|
    ensures c.blocks[b].hash != Chain(cfg, q, j)
  {
    if c.blocks[b].hash != 0 {
      var k :| m < k <= |q| && c.blocks[b].hash == Chain(cfg, q, k);
      ChainInjective(cfg, q, j, q, k);
    }
  }

  lemma FreeHit(cfg: Config, c: Cache, held: multiset<nat>, prompt: seq<int>) returns (i: nat)
    requires Sound(cfg, c, held) && !Walkable(cfg, c, prompt)
    ensures i < |Hits(cfg, c, prompt)| <= |Chunks(prompt, cfg.blockSize)| && cfg.caching
    ensures var b := Hits(cfg, c, prompt)[i]; b < |c.blocks| && c.blocks[b].hash == 0
  {
    HitsRange(cfg, c, prompt);
    i :| 0 <= i < |Hits(cfg, c, prompt)| && Hits(cfg, c, prompt)[i] in c.free;
  }

  /** A registration that hits a free block does not record its prompt. */
  lemma FreeHitNotOwned(cfg: Config, c: Cache, held: multiset<nat>, id: nat, prompt: seq<int>,
                        prompts: map<nat, seq<int>>, lens: map<nat, nat>)
    requires Sound(cfg, c, held) && !Walkable(cfg, c, prompt) && id !in c.tables
    requires NonZeroHash(cfg) && InjectiveHash(cfg) && Register(cfg, c, id, prompt).Return?
    ensures cfg.caching && !Owned(cfg, Register(cfg, c, id, prompt).cache, prompts[id := prompt], lens)
  {
    hide Sound, Owned, Walkable, NonZeroHash, InjectiveHash, Chunks, Deeper, Chain, Hits;
    SoundShape(cfg, c, held);
    var c' := Register(cfg, c, id, prompt).cache;
    var i := FreeHit(cfg, c, held, prompt);
    FreeHitPublished(cfg, c, prompt, i);
    if Owned(cfg, c', prompts[id := prompt], lens) {
      OwnedHashes(cfg, c', id, prompts[id := prompt], lens);
      var q, m := Chunks(prompt, cfg.blockSize), |Hits(cfg, c, prompt)|;
      DeeperIsOther(cfg, Prepared(cfg, c, prompt).cache, q, m, c'.tables[id][i], i + 1);
      assert false;
    }
  }

  /** A registration that returns records its prompt if and only if the lookup walks
      live nodes. A lookup that hits a free block walks a dead one. */
  lemma RegisterOwnedIff(cfg: Config, c: Cache, held: multiset<nat>, id: nat, prompt: seq<int>,
                         prompts: map<nat, seq<int>>, lens: map<nat, nat>)
    requires Sound(cfg, c, held) && Owned(cfg, c, prompts, lens) && id !in c.tables
    requires cfg.caching ==> NonZeroHash(cfg) && TreeSound(cfg, c.tree)
    requires Walkable(cfg, c, prompt) || InjectiveHash(cfg)
    requires Register(cfg, c, id, prompt).Return?
    ensures Shape(cfg, c)
    ensures Owned(cfg, Register(cfg, c, id, prompt).cache, prompts[id := prompt], lens[id := |prompt|])
      <==> (cfg.caching ==> WalkLive(cfg, c, prompt))
  {
    hide Sound, Owned, Walkable, WalkLive, TreeSound, NonZeroHash, InjectiveHash, Chunks, SeqOk;
    SoundShape(cfg, c, held);
    var r := Register(cfg, c, id, prompt);
    if !Walkable(cfg, c, prompt) {
      var i := FreeHit(cfg, c, held, prompt);
      FreeHitNotOwned(cfg, c, held, id, prompt, prompts, lens[id := |prompt|]);
      if WalkLive(cfg, c, prompt) {
        WalkLiveIsWalkable(cfg, c, held, prompt);
      }
    } else if !cfg.caching || WalkLive(cfg, c, prompt) {
      RegisterOwned(cfg, c, held, id, prompt, prompts, lens);
    } else if Owned(cfg, r.cache, prompts[id := prompt], lens[id := |prompt|]) {
      HitsPublished(cfg, c, held, prompt);
      OwnedHashes(cfg, r.cache, id, prompts[id := prompt], lens[id := |prompt|]);
      WalkLiveIff(cfg, c, prompt);
      assert false;
    }
  }

  lemma OwnedHashes(cfg: Config, c: Cache, id: nat, prompts: map<nat, seq<int>>, lens: map<nat, nat>)
    requires Owned(cfg, c, prompts, lens) && id in c.tables
    ensures var t, q := c.tables[id], Chunks(prompts[id], cfg.blockSize);
      && InRange(t, |c.blocks|) && |q| <= |t|
      && forall j :: 0 <= j < |q| ==> c.blocks[t[j]].hash == Chain(cfg, q, j + 1)
  {
  }
}
