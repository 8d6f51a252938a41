/** What whole runs of the KV cache promise: the longest shared prefix, who may
    share a block, context lengths, the statistics; and the run that shows what
    an eviction breaks. */
module PagedKvTheorems {
  import opened Wrappers
  import opened Sums
  import opened PagedKv
  import opened PagedKvSound
  import opened PagedKvOps
  import opened PagedKvPrefix
  import opened PagedKvContent
  import opened PagedKvOwnership
  import opened PagedKvAppend
  import opened PagedKvRuns

  // ----- The longest shared prefix -----

  lemma StepTrie(cfg: Config, w: World, op: Op)
    requires cfg.caching && NonZeroHash(cfg) && InjectiveHash(cfg) && Shape(cfg, w.cache)
    requires TrieOf(cfg, w.cache.tree, w.seen)
    ensures var w' := Step(cfg, w, op); TrieOf(cfg, w'.cache.tree, w'.seen)
  {
    hide Shape, TrieOf, NonZeroHash, InjectiveHash;
    match op
    case DoRegister(id, prompt) =>
      if id !in w.cache.tables {
        var q, t := Chunks(prompt, cfg.blockSize), Placed(cfg, w.cache, prompt).table;
        RegisterTrie(cfg, w.cache, w.seen, id, prompt);
        assert |t| == |q| ==> q[..|t|] == q;
      }
    case DoAppend(id, n) => AppendTree(cfg, w.cache, id, n);
    case DoUnregister(id) =>
    case DoFork(parent, child) =>
      if parent in w.cache.tables {
        ForkTree(cfg, w.cache, parent, child);
      }
  }

  lemma ForkTree(cfg: Config, c: Cache, parent: nat, child: nat)
    requires Shape(cfg, c)
    ensures Fork(cfg, c, parent, child).cache.tree == c.tree
  {
    if parent in c.tables {
      ShareKeeps(cfg, c, c.tables[parent]);
    }
  }

  lemma AppendTree(cfg: Config, c: Cache, id: nat, n: nat)
    requires Shape(cfg, c)
    ensures Append(cfg, c, id, n).cache.tree == c.tree
  {
    if id in c.tables && n > Room(cfg, c, id) {
      ExtendTree(cfg, FillLast(cfg, c, id, Room(cfg, c, id)), id, n - Room(cfg, c, id));
    }
  }

  lemma {:induction false} ExtendTree(cfg: Config, c: Cache, id: nat, remaining: nat)
    requires Shape(cfg, c) && id in c.tables
    ensures Extend(cfg, c, id, remaining).cache.tree == c.tree
    decreases remaining
  {
    hide Shape;
    if remaining > 0 {
      var added := if remaining < cfg.blockSize then remaining else cfg.blockSize;
      var g := Grow(cfg, c, id, added);
      if g.Return? {
        ExtendTree(cfg, g.cache, id, remaining - added);
      }
    }
  }

  /** The tree stands for all prompts ever registered, evictions or not. */
  lemma {:induction false} RunTrie(cfg: Config, ops: seq<Op>)
    requires cfg.caching && NonZeroHash(cfg) && InjectiveHash(cfg)
    ensures TrieOf(cfg, Run(cfg, ops).cache.tree, Run(cfg, ops).seen)
  {
    hide TrieOf, NonZeroHash, InjectiveHash;
    if ops == [] {
      InitTrie(cfg);
    } else {
      RunTrie(cfg, ops[..|ops| - 1]);
      StepTrie(cfg, Run(cfg, ops[..|ops| - 1]), ops[|ops| - 1]);
    }
  }

  /** After any run, registering a new sequence returns the length of the longest
      block-aligned prefix shared with any prompt registered before. */
  lemma LongestPrefix(cfg: Config, ops: seq<Op>, id: nat, prompt: seq<int>)
    requires cfg.caching && NonZeroHash(cfg) && InjectiveHash(cfg)
    requires id !in Run(cfg, ops).cache.tables && Register(cfg, Run(cfg, ops).cache, id, prompt).Return?
    ensures var q, seen := Chunks(prompt, cfg.blockSize), Run(cfg, ops).seen;
      exists m: nat :: Register(cfg, Run(cfg, ops).cache, id, prompt).value == TokensIn(m, cfg.blockSize)
        && (m == 0 || SeenPrefix(seen, q, m))
        && (forall p, j: nat :: p in seen && Shares(p, q, j) ==> j <= m)
  {
    var q := Chunks(prompt, cfg.blockSize);
    RunTrie(cfg, ops);
    LookupIsLongest(cfg, Run(cfg, ops).cache.tree, Run(cfg, ops).seen, q);
    hide TrieOf, NonZeroHash, InjectiveHash, Shape, Chunks, SeenPrefix, Shares, Run;
    var c := Run(cfg, ops).cache;
    assert Register(cfg, c, id, prompt).value == TokensIn(Lookup(cfg, c.tree, q), cfg.blockSize);
  }

  /** Sharing j blocks is agreeing on the first j * size tokens. */
  lemma {:induction false} SharesInTokens(p: seq<int>, q: seq<int>, size: Pos, j: nat)
    ensures Shares(Chunks(p, size), Chunks(q, size), j) <==>
      TokensIn(j, size) <= |p| && TokensIn(j, size) <= |q| && p[..TokensIn(j, size)] == q[..TokensIn(j, size)]
    decreases j
  {
    if j > 0 {
      var n := TokensIn(j - 1, size);
      assert TokensIn(j, size) == n + size;
      if |p| >= size && |q| >= size {
        var p', q' := p[size..], q[size..];
        SharesInTokens(p', q', size, j - 1);
        SharesCons(Chunks(p, size), Chunks(q, size), j);
        if n + size <= |p| && n + size <= |q| {
          PrefixSplit(p, q, size, n);
        }
      }
    }
  }

  lemma SharesCons(p: seq<seq<int>>, q: seq<seq<int>>, j: nat)
    requires p != [] && q != [] && j > 0
    ensures Shares(p, q, j) <==> p[0] == q[0] && Shares(p[1..], q[1..], j - 1)
  {
    if j <= |p| && j <= |q| {
      assert p[..j] == [p[0]] + p[1..][..j - 1] && q[..j] == [q[0]] + q[1..][..j - 1];
      if Shares(p, q, j) {
        assert p[0] == p[..j][0] && q[0] == q[..j][0];
        assert p[1..][..j - 1] == p[..j][1..] && q[1..][..j - 1] == q[..j][1..];
      }
    }
  }

  lemma PrefixSplit(p: seq<int>, q: seq<int>, k: nat, n: nat)
    requires k + n <= |p| && k + n <= |q|
    ensures p[..n + k] == q[..n + k] <==> p[..k] == q[..k] && p[k..][..n] == q[k..][..n]
  {
    assert p[..n + k] == p[..k] + p[k..][..n] && q[..n + k] == q[..k] + q[k..][..n];
    if p[..n + k] == q[..n + k] {
      assert p[..k] == p[..n + k][..k] && q[..k] == q[..n + k][..k];
      assert p[k..][..n] == p[..n + k][k..] && q[k..][..n] == q[..n + k][k..];
    }
  }

  // ----- What the sequences hold -----

  /** Everything that is kept in a run whose lookups walk live nodes and whose appends
      write into no shared block. */
  ghost predicate Healthy(cfg: Config, w: World) {
    && Sound(cfg, w.cache, w.leaked)
    && Owned(cfg, w.cache, w.prompts, w.lens)
    && (cfg.caching ==> TrieOf(cfg, w.cache.tree, w.seen))
  }

  lemma LiveStepWalks(cfg: Config, w: World, op: Op)
    requires Sound(cfg, w.cache, w.leaked) && StepLive(cfg, w, op)
    ensures StepWalks(cfg, w, op)
  {
    if op.DoRegister? && op.id !in w.cache.tables && cfg.caching {
      WalkLiveIsWalkable(cfg, w.cache, w.leaked, op.prompt);
    }
  }

  lemma RegisterStepOwned(cfg: Config, w: World, id: nat, prompt: seq<int>)
    requires cfg.caching ==> NonZeroHash(cfg) && InjectiveHash(cfg)
    requires Healthy(cfg, w) && StepLive(cfg, w, DoRegister(id, prompt))
    ensures var w' := Step(cfg, w, DoRegister(id, prompt));
      Owned(cfg, w'.cache, w'.prompts, w'.lens) && (Solo(cfg, w.cache) ==> Solo(cfg, w'.cache))
  {
    LiveStepWalks(cfg, w, DoRegister(id, prompt));
    hide Sound, Owned, TreeSound, NonZeroHash, InjectiveHash, WalkLive, Walkable, Register, Shape;
    if id !in w.cache.tables {
      RegisterOwned(cfg, w.cache, w.leaked, id, prompt, w.prompts, w.lens);
    }
  }

  lemma AppendStepOwned(cfg: Config, w: World, id: nat, n: nat)
    requires Healthy(cfg, w) && StepUnshared(cfg, w, DoAppend(id, n))
    ensures var w' := Step(cfg, w, DoAppend(id, n)); Owned(cfg, w'.cache, w'.prompts, w'.lens)
  {
    hide Shape, Partition, HashRules, Accounted, SeqOk, Solo, TrieOf, LengthIn, Append, Appendable;
    if id in w.cache.tables {
      AppendOwned(cfg, w.cache, w.leaked, id, n, w.prompts, w.lens);
    } else {
      AppendUnknown(cfg, w.cache, id, n);
    }
  }

  lemma AppendUnknown(cfg: Config, c: Cache, id: nat, n: nat)
    requires Shape(cfg, c) && id !in c.tables
    ensures Append(cfg, c, id, n) == Throw(NotRegistered, c)
  {
  }

  lemma UnregisterStepOwned(cfg: Config, w: World, id: nat)
    requires Healthy(cfg, w)
    ensures var w' := Step(cfg, w, DoUnregister(id));
      Owned(cfg, w'.cache, w'.prompts, w'.lens) && (Solo(cfg, w.cache) ==> Solo(cfg, w'.cache))
  {
    hide Shape, Partition, HashRules, Accounted, SeqOk, Solo, TrieOf;
    if id in w.cache.tables {
      UnregisterKeeps(cfg, w.cache, w.leaked, id);
      UnregisterOwned(cfg, w.cache, w.leaked, id, w.prompts, w.lens);
    } else {
      assert w.prompts - {id} == w.prompts && w.lens - {id} == w.lens;
    }
  }

  lemma {:induction false} ShareFills(cfg: Config, c: Cache, t: seq<nat>)
    requires Shape(cfg, c) && InRange(t, cfg.totalBlocks)
    ensures var c' := Share(cfg, c, t);
      |c'.blocks| == |c.blocks| && forall b :: 0 <= b < |c.blocks| ==> c'.blocks[b].filled == c.blocks[b].filled
    decreases |t|
  {
    if t != [] {
      ShareFills(cfg, c, t[..|t| - 1]);
    }
  }

  lemma ForkChanges(cfg: Config, c: Cache, parent: nat, child: nat)
    requires Shape(cfg, c) && parent in c.tables
    ensures var c' := Fork(cfg, c, parent, child).cache;
      && c'.tables == c.tables[child := c.tables[parent]]
      && forall t :: InRange(t, |c.blocks|) ==> Untouched(c, c', t)
  {
    ShareKeeps(cfg, c, c.tables[parent]);
    ShareFills(cfg, c, c.tables[parent]);
  }

  /** A fork gives the child its parent's blocks, and so its parent's record. */
  lemma ForkStepOwned(cfg: Config, w: World, parent: nat, child: nat)
    requires Healthy(cfg, w)
    ensures var w' := Step(cfg, w, DoFork(parent, child)); Owned(cfg, w'.cache, w'.prompts, w'.lens)
  {
    hide Sound, SeqOk, TrieOf, Shape, Fork, Untouched;
    HealthyShape(cfg, w);
    var c := w.cache;
    var c' := Fork(cfg, c, parent, child).cache;
    if parent in c.tables {
      ForkChanges(cfg, c, parent, child);
      forall k | k in c.tables ensures SeqOk(cfg, c', c.tables[k], w.prompts[k], w.lens[k]) {
        SeqOkInRange(cfg, c, c.tables[k], w.prompts[k], w.lens[k]);
        SeqOkFrame(cfg, c, c', c.tables[k], w.prompts[k], w.lens[k]);
      }
    } else {
      ForkUnknown(cfg, c, parent, child);
    }
  }

  lemma SeqOkInRange(cfg: Config, c: Cache, t: seq<nat>, prompt: seq<int>, len: nat)
    requires SeqOk(cfg, c, t, prompt, len)
    ensures InRange(t, |c.blocks|)
  {
  }

  lemma ForkUnknown(cfg: Config, c: Cache, parent: nat, child: nat)
    requires Shape(cfg, c) && parent !in c.tables
    ensures Fork(cfg, c, parent, child) == Throw(ParentNotFound, c)
  {
  }

  lemma StepOwned(cfg: Config, w: World, op: Op)
    requires cfg.caching ==> NonZeroHash(cfg) && InjectiveHash(cfg)
    requires Healthy(cfg, w) && StepLive(cfg, w, op) && StepUnshared(cfg, w, op)
    ensures var w' := Step(cfg, w, op); Owned(cfg, w'.cache, w'.prompts, w'.lens)
  {
    hide Owned, Healthy, NonZeroHash, InjectiveHash, StepLive, StepUnshared, Shape, Step;
    match op
    case DoRegister(id, prompt) => RegisterStepOwned(cfg, w, id, prompt);
    case DoAppend(id, n) => AppendStepOwned(cfg, w, id, n);
    case DoUnregister(id) => UnregisterStepOwned(cfg, w, id);
    case DoFork(parent, child) => ForkStepOwned(cfg, w, parent, child);
  }

  /** Every step that is not a fork leaves blocks without a hash with one holder. */
  lemma StepSolo(cfg: Config, w: World, op: Op)
    requires cfg.caching ==> NonZeroHash(cfg) && InjectiveHash(cfg)
    requires Healthy(cfg, w) && Solo(cfg, w.cache) && StepLive(cfg, w, op) && !op.DoFork?
    ensures StepUnshared(cfg, w, op) && Solo(cfg, Step(cfg, w, op).cache)
  {
    hide Owned, TrieOf, NonZeroHash, InjectiveHash, StepLive, Shape, Solo, Partition, HashRules, Accounted,
      Appendable;
    match op
    case DoRegister(id, prompt) => RegisterStepOwned(cfg, w, id, prompt);
    case DoAppend(id, n) =>
      SoloAppendable(cfg, w.cache, w.leaked, id, n);
      AppendSolo(cfg, w.cache, w.leaked, id, n);
    case DoUnregister(id) => UnregisterStepOwned(cfg, w, id);
  }

  /** Appending keeps everything, also when it throws. */
  lemma AppendHealthy(cfg: Config, w: World, id: nat, n: nat)
    requires Healthy(cfg, w) && StepUnshared(cfg, w, DoAppend(id, n))
    ensures Healthy(cfg, Step(cfg, w, DoAppend(id, n)))
  {
    hide Sound, Owned, TrieOf, Shape, Append, StepUnshared;
    AppendStepOwned(cfg, w, id, n);
    StepSound(cfg, w, DoAppend(id, n));
    HealthyShape(cfg, w);
    AppendTree(cfg, w.cache, id, n);
  }

  lemma HealthyShape(cfg: Config, w: World)
    requires Healthy(cfg, w)
    ensures Shape(cfg, w.cache)
  {
  }

  /** Appending a single token changes nothing when it throws. */
  lemma AppendOneThrows(cfg: Config, w: World, id: nat)
    requires Healthy(cfg, w) && id in w.cache.tables && Append(cfg, w.cache, id, 1).Throw?
    ensures Step(cfg, w, DoAppend(id, 1)) == w
  {
    var c := w.cache;
    OwnedLength(cfg, c, id, w.prompts, w.lens);
    AppendOneSame(cfg, c, id);
  }

  lemma AppendOneSame(cfg: Config, c: Cache, id: nat)
    requires Shape(cfg, c) && id in c.tables && Append(cfg, c, id, 1).Throw?
    ensures Append(cfg, c, id, 1).cache == c
  {
    if Room(cfg, c, id) == 0 {
      FillLastChanges(cfg, c, id, 0);
      ExtendOneSame(cfg, c, id);
    }
  }

  lemma ExtendOneSame(cfg: Config, c: Cache, id: nat)
    requires Shape(cfg, c) && id in c.tables && Extend(cfg, c, id, 1).Throw?
    ensures Extend(cfg, c, id, 1).cache == c
  {
  }

  lemma InitHealthy(cfg: Config)
    ensures Healthy(cfg, World(Init(cfg), multiset{}, map[], map[], {}))
  {
    InitSound(cfg);
    InitTrie(cfg);
  }

  /** Healthy is kept over every run whose registrations walk live nodes and whose
      appends write into no shared block, evictions and forks included. */
  lemma {:induction false} RunHealthy(cfg: Config, ops: seq<Op>)
    requires cfg.caching ==> NonZeroHash(cfg) && InjectiveHash(cfg)
    requires RunLive(cfg, ops) && RunUnshared(cfg, ops)
    ensures Healthy(cfg, Run(cfg, ops))
  {
    if ops == [] {
      InitHealthy(cfg);
    } else {
      var w, op := Run(cfg, ops[..|ops| - 1]), ops[|ops| - 1];
      RunHealthy(cfg, ops[..|ops| - 1]);
      hide Sound, Owned, TrieOf, NonZeroHash, InjectiveHash, Shape, StepLive, StepUnshared;
      StepOwned(cfg, w, op);
      LiveStepWalks(cfg, w, op);
      StepSound(cfg, w, op);
      if cfg.caching {
        RunTrie(cfg, ops);
      }
    }
  }

  lemma InitSolo(cfg: Config)
    ensures Solo(cfg, Init(cfg))
  {
  }

  /** Without forks no append writes into a shared block. */
  lemma {:induction false} NoForksUnshared(cfg: Config, ops: seq<Op>)
    requires cfg.caching ==> NonZeroHash(cfg) && InjectiveHash(cfg)
    requires NoForks(ops) && RunLive(cfg, ops)
    ensures RunUnshared(cfg, ops) && Solo(cfg, Run(cfg, ops).cache)
  {
    hide Healthy, NonZeroHash, InjectiveHash, Shape, StepLive, StepUnshared, Solo;
    if ops == [] {
      InitSolo(cfg);
    } else {
      NoForksUnshared(cfg, ops[..|ops| - 1]);
      RunHealthy(cfg, ops[..|ops| - 1]);
      StepSolo(cfg, Run(cfg, ops[..|ops| - 1]), ops[|ops| - 1]);
    }
  }

  /** The block at a position of a page table carries a hash of the cache. */
  ghost predicate HashedAt(cfg: Config, c: Cache, id: nat, j: nat) {
    cfg.caching && id in c.tables && j < |c.tables[id]| && c.tables[id][j] < |c.blocks|
    && c.blocks[c.tables[id][j]].hash != 0
  }

  /** Two table positions hold the same block only if they are the same position
      of two sequences whose prompts agree on all full blocks up to there; a block
      without a hash is shared only by a fork. */
  lemma SharingIsPrefix(cfg: Config, ops: seq<Op>, id1: nat, j1: nat, id2: nat, j2: nat)
    requires NonZeroHash(cfg) && InjectiveHash(cfg) && RunLive(cfg, ops) && RunUnshared(cfg, ops)
    requires NoForks(ops) || HashedAt(cfg, Run(cfg, ops).cache, id1, j1)
    requires var t := Run(cfg, ops).cache.tables;
      && id1 in t && j1 < |t[id1]| && id2 in t && j2 < |t[id2]|
      && (id1 != id2 || j1 != j2) && t[id1][j1] == t[id2][j2]
    ensures var w := Run(cfg, ops); cfg.caching && id1 != id2 && j1 == j2 && id1 in w.prompts && id2 in w.prompts
    ensures var w, n := Run(cfg, ops), TokensIn(j1 + 1, cfg.blockSize);
      n <= |w.prompts[id1]| && n <= |w.prompts[id2]| && w.prompts[id1][..n] == w.prompts[id2][..n]
  {
    hide Sound, TrieOf, NonZeroHash, InjectiveHash, SeqOk, Solo, Run, Chunks, Shares, RunLive, RunUnshared, NoForks;
    var w := Run(cfg, ops);
    if NoForks(ops) {
      NoForksUnshared(cfg, ops);
    }
    RunHealthy(cfg, ops);
    SharedBlocksSharePrefix(cfg, w.cache, w.leaked, w.prompts, w.lens, id1, j1, id2, j2);
    SharesInTokens(w.prompts[id1], w.prompts[id2], cfg.blockSize, j1 + 1);
  }

  /** The context length staged for the kernels is the length of the sequence:
      its prompt plus every token appended to it or to those it was forked from. */
  lemma StagedLength(cfg: Config, ops: seq<Op>, id: nat)
    requires cfg.caching ==> NonZeroHash(cfg) && InjectiveHash(cfg)
    requires RunLive(cfg, ops) && RunUnshared(cfg, ops) && id in Run(cfg, ops).cache.tables
    ensures var w := Run(cfg, ops); var t := w.cache.tables[id];
      && id in w.lens && t != [] && Last(t) < |w.cache.blocks|
      && w.lens[id] == TokensIn(|t| - 1, cfg.blockSize) + w.cache.blocks[Last(t)].filled
    ensures ContextLen(cfg, Run(cfg, ops).cache, id) == Run(cfg, ops).lens[id]
  {
    hide Sound, Owned, Run, RunLive, RunUnshared, TrieOf, NonZeroHash, InjectiveHash;
    var w := Run(cfg, ops);
    RunHealthy(cfg, ops);
    ShapeTable(cfg, w.cache, id);
    OwnedContext(cfg, w.cache, w.prompts, w.lens, id);
  }

  // ----- Statistics -----

  ghost function InUse(c: Cache): set<nat> {
    set b: nat | b in Upto(|c.blocks|) && b < |c.blocks| && c.blocks[b].refCount > 0
  }

  ghost function Upto(n: nat): (s: set<nat>)
    ensures forall b :: b in s <==> 0 <= b < n
    ensures |s| == n
  {
    if n == 0 then {} else Upto(n - 1) + {n - 1}
  }

  /** The statistics' total - free - cached is the number of blocks in use. */
  lemma AllocatedBlocks(cfg: Config, c: Cache, held: multiset<nat>)
    requires Sound(cfg, c, held)
    ensures cfg.totalBlocks - |c.free| - |c.lru| == |InUse(c)|
  {
    var f, l := set b | b in c.free, set b | b in c.lru;
    assert |f| == |c.free| && |l| == |c.lru| by {
      NoDupSize(c.free);
      NoDupSize(c.lru);
    }
    hide Accounted, HashRules, TreeShape, NoDup;
    forall b: nat ensures b in Upto(|c.blocks|) <==> b in f || b in l || b in InUse(c) {
    }
    forall b | b in f ensures b !in l && b !in InUse(c) {
    }
    forall b | b in l ensures b !in InUse(c) {
    }
    ThreeWay(|c.blocks|, f, l, InUse(c));
  }

  lemma ThreeWay(n: nat, f: set<nat>, l: set<nat>, u: set<nat>)
    requires forall b: nat :: b in Upto(n) <==> b in f || b in l || b in u
    requires (forall b :: b in f ==> b !in l && b !in u) && (forall b :: b in l ==> b !in u)
    ensures n == |f| + |l| + |u|
  {
    assert Upto(n) == f + l + u;
  }

  // ----- What an eviction breaks -----

  function StaleTree(hv: nat): seq<Node> {
    [Node(0, -1, map[hv := 1]), Node(hv, 0, map[])]
  }

  ghost predicate OneBlock(cfg: Config) {
    cfg.totalBlocks == 1 && cfg.blockSize == 2 && cfg.caching && NonZeroHash(cfg)
  }

  function Cached(hv: nat): Cache {
    Cache([Block(0, 2, hv, true)], [], [0], StaleTree(hv), map[], 0, 1, 0)
  }

  function Stale(hv: nat): Cache {
    Cache([Block(0, 0, 0, false)], [0], [], StaleTree(hv), map[], 0, 1, 1)
  }

  lemma OneChunk(cfg: Config, t: int)
    ensures Chunks([t, t], 2) == [[t, t]] && Chain(cfg, [[t, t]], 1) == cfg.hash([t, t], 0)
  {
    assert [t, t][..2] == [t, t] && [t, t][2..] == [];
    assert Chunks([], 2) == [];
    assert Chain(cfg, [[t, t]], 0) == 0;
  }

  lemma RunPair(cfg: Config, ops: seq<Op>, id: nat, prompt: seq<int>)
    requires id !in Run(cfg, ops).cache.tables
    ensures Run(cfg, ops + [DoRegister(id, prompt), DoUnregister(id)]).cache
      == Unregister(cfg, Register(cfg, Run(cfg, ops).cache, id, prompt).cache, id)
  {
    hide Shape, Register, Unregister, RegisterLeak;
    var all := ops + [DoRegister(id, prompt), DoUnregister(id)];
    assert all[..|all| - 1] == ops + [DoRegister(id, prompt)];
    assert all[..|all| - 1][..|ops|] == ops;
  }

  /** A prompt of one new block gets the block that is allocated and files it. */
  lemma OneBlockPrompt(cfg: Config, c: Cache, id: nat, prompt: seq<int>, b: nat, c1: Cache)
    requires Shape(cfg, c) && id !in c.tables && Allocate(cfg, c) == Return(b, c1)
    requires Chunks(prompt, cfg.blockSize) == [prompt] && TailLength(prompt, cfg.blockSize) == 0
    requires Lookup(cfg, c.tree, [prompt]) == 0
    ensures var hv := cfg.hash(prompt, 0);
      Register(cfg, c, id, prompt)
        == Return(0, Publish(cfg, Graft(cfg, HashBlock(cfg, c1, b, hv), 0, hv, b), id, [b]))
  {
    var hv := cfg.hash(prompt, 0);
    assert Chain(cfg, [prompt], 0) == 0 && Chain(cfg, [prompt], 1) == hv;
    assert AfterLookup(cfg, c, [prompt]) == Filling(true, c, [], 0);
    var f := InsertChunk(cfg, Filling(true, c, [], 0), hv);
    assert Placed(cfg, c, prompt) == f && f.table == [] + [b] == [b];
    assert Prepared(cfg, c, prompt) == f;
    assert TokensIn(0, cfg.blockSize) == 0;
  }

  lemma SingleUnregister(cfg: Config, c: Cache, id: nat, b: nat)
    requires Shape(cfg, c) && id in c.tables && c.tables[id] == [b]
    ensures var c1 := Release(cfg, c, b); Unregister(cfg, c, id) == c1.(tables := c1.tables - {id})
  {
    assert ReleaseAll(cfg, c, []) == c && [b][..0] == [];
    assert ReleaseAll(cfg, c, [b]) == Release(cfg, c, b);
  }

  function InUseBlock(hv: nat): Cache {
    Cache([Block(1, 2, hv, false)], [], [], StaleTree(hv), map[1 := [0]], 0, 1, 0)
  }

  lemma FirstPrompt(cfg: Config)
    requires OneBlock(cfg)
    ensures Register(cfg, Init(cfg), 1, [5, 5]) == Return(0, InUseBlock(cfg.hash([5, 5], 0)))
  {
    hide Register, NonZeroHash;
    var c, hv := Init(cfg), cfg.hash([5, 5], 0);
    assert c == Cache([Block(0, 0, 0, false)], [0], [], [Node(0, -1, map[])], map[], 0, 0, 0);
    OneChunk(cfg, 5);
    assert Reach(cfg, c.tree, [[5, 5]], 1) == None;
    OneBlockPrompt(cfg, c, 1, [5, 5], 0, Pop(cfg, c));
    var c1 := Publish(cfg, Graft(cfg, HashBlock(cfg, Pop(cfg, c), 0, hv), 0, hv, 0), 1, [0]);
    assert c1.tree == StaleTree(hv);
    assert c1 == InUseBlock(hv);
  }

  lemma InUseReleased(cfg: Config)
    requires OneBlock(cfg) && Shape(cfg, InUseBlock(cfg.hash([5, 5], 0)))
    ensures var hv := cfg.hash([5, 5], 0); var c := Release(cfg, InUseBlock(hv), 0);
      c.(tables := c.tables - {1}) == Cached(hv)
  {
    var hv := cfg.hash([5, 5], 0);
    var c := Release(cfg, InUseBlock(hv), 0);
    assert c.tables - {1} == map[];
  }

  /** A full block is registered and released: it stays in the cache. */
  lemma CacheOnePrompt(cfg: Config)
    requires OneBlock(cfg)
    ensures var hv := cfg.hash([5, 5], 0);
      Unregister(cfg, Register(cfg, Init(cfg), 1, [5, 5]).cache, 1) == Cached(hv)
  {
    hide Register, Unregister, NonZeroHash, Init, Release, OneBlock, Shape;
    FirstPrompt(cfg);
    InUseReleased(cfg);
    SingleUnregister(cfg, InUseBlock(cfg.hash([5, 5], 0)), 1, 0);
  }

  /** A prompt of one token evicts the cached block and frees it again. */
  lemma EvictCached(cfg: Config, hv: nat)
    requires OneBlock(cfg) && Shape(cfg, Cached(hv))
    ensures Unregister(cfg, Register(cfg, Cached(hv), 2, [9]).cache, 2) == Stale(hv)
  {
    var c := Cached(hv);
    assert Chunks([9], 2) == [];
    assert Placed(cfg, c, [9]) == Filling(true, c, [], 0);
    var c1 := Cache([Block(1, 1, 0, false)], [], [], StaleTree(hv), map[2 := [0]], 0, 1, 1);
    assert Register(cfg, c, 2, [9]).cache == c1;
    SingleUnregister(cfg, c1, 2, 0);
  }

  /** One block and any hash: a prompt is cached and released, a short sequence
      evicts it, and its node stays in the tree. The same prompt then hits a block
      that is free and holds nothing, and the next allocation hands that block to
      a second sequence as well. */
  lemma StaleNodeRun(cfg: Config, ops: seq<Op>)
    requires OneBlock(cfg)
    requires ops == [DoRegister(1, [5, 5]), DoUnregister(1), DoRegister(2, [9]), DoUnregister(2)]
    ensures var c := Run(cfg, ops).cache; var r := Register(cfg, c, 3, [5, 5]);
      && !Walkable(cfg, c, [5, 5])
      && r.Return? && r.value == 2 && r.cache.blocks == [Block(1, 0, 0, false)]
      && var r2 := Register(cfg, r.cache, 4, [9]);
         r2.Return? && r2.cache.tables == map[3 := [0], 4 := [0]] && r2.cache.blocks == [Block(1, 1, 0, false)]
  {
    var hv := cfg.hash([5, 5], 0);
    hide Shape, Register, Unregister, Walkable, NonZeroHash;
    var first := [] + [DoRegister(1, [5, 5]), DoUnregister(1)];
    assert ops == first + [DoRegister(2, [9]), DoUnregister(2)];
    CacheOnePrompt(cfg);
    RunPair(cfg, [], 1, [5, 5]);
    EvictCached(cfg, hv);
    RunPair(cfg, first, 2, [9]);
    HitStale(cfg, hv);
    ShareRevived(cfg, hv);
  }

  function Revived(hv: nat): Cache {
    Cache([Block(1, 0, 0, false)], [0], [], StaleTree(hv), map[3 := [0]], 1, 1, 1)
  }

  /** The stale node is hit: the block becomes referenced while it stays free. */
  lemma HitStale(cfg: Config, hv: nat)
    requires OneBlock(cfg) && Shape(cfg, Stale(hv)) && hv == cfg.hash([5, 5], 0)
    ensures !Walkable(cfg, Stale(hv), [5, 5])
    ensures Register(cfg, Stale(hv), 3, [5, 5]) == Return(2, Revived(hv))
  {
    hide NonZeroHash;
    var c, q := Stale(hv), Chunks([5, 5], 2);
    OneChunk(cfg, 5);
    assert Reach(cfg, c.tree, q, 1) == Some(1);
    assert Lookup(cfg, c.tree, q) == 1;
    assert HitBlocks(cfg, c.tree, q, 1) == [0];
    assert 0 in Hits(cfg, c, [5, 5]) && c.free[0] == 0;
    var c1 := Cache([Block(1, 0, 0, false)], [0], [], StaleTree(hv), map[], 1, 1, 1);
    assert ClaimAll(cfg, c, [0]) == Claim(cfg, c, 0) == c1;
    assert Prepared(cfg, c, [5, 5]) == Filling(true, c1, [0], 1);
    assert Publish(cfg, c1, 3, [0]) == Revived(hv);
  }

  /** A prompt shorter than a block takes one block from the free stack. */
  lemma ShortPrompt(cfg: Config, c: Cache, id: nat, prompt: seq<int>)
    requires Shape(cfg, c) && id !in c.tables && 0 < |prompt| < cfg.blockSize && c.free != []
    ensures TailLength(prompt, cfg.blockSize) == |prompt|
    ensures Register(cfg, c, id, prompt)
      == Return(0, Publish(cfg, SetFilled(cfg, Pop(cfg, c), Last(c.free), |prompt|), id, [Last(c.free)]))
  {
    assert Chunks(prompt, cfg.blockSize) == [];
    assert Lookup(cfg, c.tree, []) == 0;
    assert Placed(cfg, c, prompt) == Filling(true, c, [], 0);
    assert TokensIn(0, cfg.blockSize) == 0;
    assert TailLength(prompt, cfg.blockSize) == |prompt|;
    assert Prepared(cfg, c, prompt).table == [] + [Last(c.free)] == [Last(c.free)];
  }

  /** The free block that is already referenced is handed out again. */
  lemma ShareRevived(cfg: Config, hv: nat)
    requires OneBlock(cfg) && Shape(cfg, Revived(hv))
    ensures var r := Register(cfg, Revived(hv), 4, [9]);
      r.Return? && r.cache.tables == map[3 := [0], 4 := [0]] && r.cache.blocks == [Block(1, 1, 0, false)]
  {
    var c := Revived(hv);
    var c1 := SetFilled(cfg, Pop(cfg, c), 0, 1);
    assert Last(c.free) == 0 && |[9]| == 1;
    ShortPrompt(cfg, c, 4, [9]);
    hide Register, NonZeroHash;
    assert Register(cfg, c, 4, [9]) == Return(0, Publish(cfg, c1, 4, [0]));
    assert c1.blocks == [Block(1, 1, 0, false)] && c1.tables == map[3 := [0]];
    assert Publish(cfg, c1, 4, [0]) == c1.(tables := c1.tables[4 := [0]]);
    assert map[3 := [0]][4 := [0]] == map[3 := [0], 4 := [0]];
  }

  // ----- A stale node whose block holds other tokens -----

  function Reused(hv: nat, hw: nat): Cache {
    var tree := [Node(0, -1, map[hv := 1, hw := 2]), Node(hv, 0, map[]), Node(hw, 0, map[])];
    Cache([Block(1, 2, hw, false)], [], [], tree, map[2 := [0]], 0, 2, 1)
  }

  lemma EvictForReuse(cfg: Config, hv: nat)
    requires OneBlock(cfg) && Shape(cfg, Cached(hv))
    ensures Allocate(cfg, Cached(hv))
      == Return(0, Cache([Block(1, 0, 0, false)], [], [], StaleTree(hv), map[], 0, 1, 1))
  {
    assert Victim(cfg, Cached(hv), 1) == Some(0);
  }

  /** The cached block is evicted for another prompt and filed under its hash, too. */
  lemma ReuseBlock(cfg: Config, hv: nat, hw: nat)
    requires OneBlock(cfg) && Shape(cfg, Cached(hv)) && hw == cfg.hash([7, 7], 0) && hv != hw
    ensures Register(cfg, Cached(hv), 2, [7, 7]) == Return(0, Reused(hv, hw))
  {
    var c, c1 := Cached(hv), Cache([Block(1, 0, 0, false)], [], [], StaleTree(hv), map[], 0, 1, 1);
    OneChunk(cfg, 7);
    assert Reach(cfg, c.tree, [[7, 7]], 1) == None;
    EvictForReuse(cfg, hv);
    hide Register, NonZeroHash, Allocate;
    OneBlockPrompt(cfg, c, 2, [7, 7], 0, c1);
    assert Publish(cfg, Graft(cfg, HashBlock(cfg, c1, 0, hw), 0, hw, 0), 2, [0]) == Reused(hv, hw);
  }

  /** The walk is possible, but the block it ends at holds the other prompt. */
  lemma MatchReused(cfg: Config, hv: nat, hw: nat)
    requires OneBlock(cfg) && Shape(cfg, Reused(hv, hw)) && hv == cfg.hash([5, 5], 0) && hv != hw
    ensures var c := Reused(hv, hw); var r := Register(cfg, c, 3, [5, 5]);
      && Walkable(cfg, c, [5, 5]) && !WalkLive(cfg, c, [5, 5])
      && r.Return? && r.value == 2 && r.cache.tables == map[2 := [0], 3 := [0]]
  {
    var c, q := Reused(hv, hw), Chunks([5, 5], 2);
    OneChunk(cfg, 5);
    assert Reach(cfg, c.tree, q, 1) == Some(1);
    assert Lookup(cfg, c.tree, q) == 1;
    assert HitBlocks(cfg, c.tree, q, 1) == [0];
    assert !LiveAt(cfg, c, q, 1);
    var c1 := c.(blocks := [Block(2, 2, hw, false)], hits := 1);
    assert ClaimAll(cfg, c, [0]) == Claim(cfg, c, 0) == c1;
    assert Prepared(cfg, c, [5, 5]) == Filling(true, c1, [0], 1);
    assert map[2 := [0]][3 := [0]] == map[2 := [0], 3 := [0]];
  }

  /** A registration can match a prompt with a block that holds other tokens: [5, 5] is
      cached, its block is evicted for [7, 7], and [5, 5] is then matched with it. */
  lemma StaleMatchRun(cfg: Config, ops: seq<Op>)
    requires OneBlock(cfg) && cfg.hash([5, 5], 0) != cfg.hash([7, 7], 0)
    requires ops == [DoRegister(1, [5, 5]), DoUnregister(1), DoRegister(2, [7, 7])]
    ensures var c := Run(cfg, ops).cache; var r := Register(cfg, c, 3, [5, 5]);
      && Walkable(cfg, c, [5, 5]) && !WalkLive(cfg, c, [5, 5])
      && r.Return? && r.value == 2 && r.cache.tables == map[2 := [0], 3 := [0]]
  {
    var hv, hw := cfg.hash([5, 5], 0), cfg.hash([7, 7], 0);
    hide Shape, Register, Unregister, Walkable, WalkLive, NonZeroHash, RegisterLeak;
    var first := [] + [DoRegister(1, [5, 5]), DoUnregister(1)];
    assert ops == first + [DoRegister(2, [7, 7])];
    assert ops[..2] == first;
    CacheOnePrompt(cfg);
    RunPair(cfg, [], 1, [5, 5]);
    ReuseBlock(cfg, hv, hw);
    MatchReused(cfg, hv, hw);
  }
}
