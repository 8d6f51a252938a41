/** Concrete runs for the properties that fail: what leaks, and what a shared block
    breaks. Each is an instance of a theorem that says exactly when it happens. */
module PagedKvExamples {
  import opened Wrappers
  import opened PagedKv
  import opened PagedKvSound
  import opened PagedKvOps
  import opened PagedKvSpare
  import opened PagedKvOwnership
  import opened PagedKvPrefix
  import opened PagedKvRuns
  import opened PagedKvTheorems

  // ----- A registration that throws -----

  lemma TwoChunks()
    ensures Chunks([5, 5, 6, 6], 2) == [[5, 5], [6, 6]] && TailLength([5, 5, 6, 6], 2) == 0
  {
    var p := [5, 5, 6, 6];
    assert p[..2] == [5, 5] && p[2..] == [6, 6];
    assert [6, 6][..2] == [6, 6] && [6, 6][2..] == [];
    assert Chunks([], 2) == [];
    assert Chunks([6, 6], 2) == [[6, 6]];
  }

  lemma InitWalk(cfg: Config, prompt: seq<int>)
    ensures Lookup(cfg, Init(cfg).tree, Chunks(prompt, cfg.blockSize)) == 0
    ensures Hits(cfg, Init(cfg), prompt) == [] && Walkable(cfg, Init(cfg), prompt)
    ensures Available(cfg, Init(cfg), prompt) == cfg.totalBlocks
  {
    var c, q := Init(cfg), Chunks(prompt, cfg.blockSize);
    if cfg.caching && |q| > 0 {
      assert Reach(cfg, c.tree, q, 0) == Some(0);
      assert Reach(cfg, c.tree, q, 1) == None;
    }
    assert CachedHits(cfg, c, prompt) == {};
  }

  /** One block, and a prompt of two: the registration throws and keeps the block. */
  lemma ThrowingRegistration(cfg: Config)
    requires cfg.totalBlocks == 1 && cfg.blockSize == 2
    ensures Register(cfg, Init(cfg), 1, [5, 5, 6, 6]).Throw? && |RegisterLeak(cfg, Init(cfg), 1, [5, 5, 6, 6])| == 1
  {
    InitSound(cfg);
    InitWalk(cfg, [5, 5, 6, 6]);
    TwoChunks();
    RegisterThrowsIff(cfg, Init(cfg), multiset{}, 1, [5, 5, 6, 6]);
  }

  // ----- Forks -----

  /** Two sequences of one token each. */
  function Pair(): Cache {
    Cache([Block(1, 1, 0, false), Block(1, 1, 0, false)], [], [], [Node(0, -1, map[])], map[1 := [0], 2 := [1]],
      0, 0, 0)
  }

  function One(): Cache {
    Cache([Block(1, 1, 0, false), Block(0, 0, 0, false)], [1], [], [Node(0, -1, map[])], map[1 := [0]], 0, 0, 0)
  }

  lemma OneRegisters(cfg: Config)
    requires cfg.totalBlocks == 2 && cfg.blockSize == 2
    ensures Register(cfg, Init(cfg), 1, [5]) == Return(0, One())
  {
    var c := Init(cfg);
    assert c == Cache([Block(0, 0, 0, false), Block(0, 0, 0, false)], [1, 0], [], [Node(0, -1, map[])], map[], 0, 0, 0);
    hide Register;
    ShortPrompt(cfg, c, 1, [5]);
  }

  lemma PairRegisters(cfg: Config)
    requires cfg.totalBlocks == 2 && cfg.blockSize == 2 && Shape(cfg, One())
    ensures Register(cfg, One(), 2, [6]) == Return(0, Pair())
  {
    hide Register;
    ShortPrompt(cfg, One(), 2, [6]);
    var c := Publish(cfg, SetFilled(cfg, Pop(cfg, One()), 1, 1), 2, [1]);
    assert map[1 := [0]][2 := [1]] == map[1 := [0], 2 := [1]];
    assert c == Pair();
  }

  lemma RunNext(cfg: Config, ops: seq<Op>, op: Op)
    ensures Run(cfg, ops + [op]) == Step(cfg, Run(cfg, ops), op)
  {
    hide Shape, Step;
    assert (ops + [op])[..|ops|] == ops;
  }

  lemma StepIsRegister(cfg: Config, w: World, id: nat, prompt: seq<int>)
    requires Shape(cfg, w.cache) && id !in w.cache.tables && Register(cfg, w.cache, id, prompt).Return?
    ensures var w' := Step(cfg, w, DoRegister(id, prompt));
      && w'.cache == Register(cfg, w.cache, id, prompt).cache && w'.leaked == w.leaked
      && w'.prompts == w.prompts[id := prompt] && w'.lens == w.lens[id := |prompt|]
  {
    hide Shape, Register;
  }

  lemma OneRun(cfg: Config)
    requires cfg.totalBlocks == 2 && cfg.blockSize == 2
    ensures var w := Run(cfg, [DoRegister(1, [5])]);
      w.cache == One() && w.leaked == multiset{} && w.prompts == map[1 := [5]] && w.lens == map[1 := 1]
  {
    hide Shape, Register, Step, Init;
    assert [] + [DoRegister(1, [5])] == [DoRegister(1, [5])];
    RunNext(cfg, [], DoRegister(1, [5]));
    InitEmpty(cfg);
    OneRegisters(cfg);
    StepIsRegister(cfg, Run(cfg, []), 1, [5]);
  }

  lemma InitEmpty(cfg: Config)
    ensures Run(cfg, []) == World(Init(cfg), multiset{}, map[], map[], {}) && Init(cfg).tables == map[]
  {
  }

  /** A fork onto a sequence that exists leaks the block of that sequence. */
  lemma ForkOntoExisting(cfg: Config)
    requires cfg.totalBlocks == 2 && cfg.blockSize == 2
    ensures Run(cfg, [DoRegister(1, [5]), DoRegister(2, [6]), DoFork(1, 2)]).leaked == multiset{1}
  {
    hide Shape, Register, Step, Run;
    var first := [DoRegister(1, [5])];
    var pair := [DoRegister(1, [5]), DoRegister(2, [6])];
    OneRun(cfg);
    assert first + [DoRegister(2, [6])] == pair;
    assert pair + [DoFork(1, 2)] == [DoRegister(1, [5]), DoRegister(2, [6]), DoFork(1, 2)];
    RunNext(cfg, first, DoRegister(2, [6]));
    RunNext(cfg, pair, DoFork(1, 2));
    PairRegisters(cfg);
    StepIsRegister(cfg, Run(cfg, first), 2, [6]);
    ForkStep(cfg, Run(cfg, pair));
  }

  lemma ForkStep(cfg: Config, w: World)
    requires Shape(cfg, w.cache) && w.cache == Pair() && w.leaked == multiset{}
    ensures Step(cfg, w, DoFork(1, 2)).leaked == multiset{1}
  {
  }

  /** A fork, and a token appended to the parent: the child, whose table has the same
      block, is recorded to hold one token, and its block holds two. */
  lemma ForkThenAppend(cfg: Config)
    requires cfg.totalBlocks == 2 && cfg.blockSize == 2
    ensures var w := Run(cfg, [DoRegister(1, [5]), DoFork(1, 2), DoAppend(1, 1)]);
      && w.cache.tables == map[1 := [0], 2 := [0]]
      && w.lens == map[1 := 2, 2 := 1]
      && InRange([0], |w.cache.blocks|) && Fills(w.cache, [0]) == 2
  {
    hide Shape, Step, Run;
    var first := [DoRegister(1, [5])];
    var forked := [DoRegister(1, [5]), DoFork(1, 2)];
    OneRun(cfg);
    assert first + [DoFork(1, 2)] == forked;
    assert forked + [DoAppend(1, 1)] == [DoRegister(1, [5]), DoFork(1, 2), DoAppend(1, 1)];
    RunNext(cfg, first, DoFork(1, 2));
    RunNext(cfg, forked, DoAppend(1, 1));
    ForkOne(cfg, Run(cfg, first));
    AppendShared(cfg, Run(cfg, forked));
  }

  function Forked(): Cache {
    Cache([Block(2, 1, 0, false), Block(0, 0, 0, false)], [1], [], [Node(0, -1, map[])], map[1 := [0], 2 := [0]],
      0, 0, 0)
  }

  lemma ForkOne(cfg: Config, w: World)
    requires cfg.totalBlocks == 2 && cfg.blockSize == 2 && Shape(cfg, w.cache)
    requires w.cache == One() && w.lens == map[1 := 1]
    ensures var w' := Step(cfg, w, DoFork(1, 2)); w'.cache == Forked() && w'.lens == map[1 := 1, 2 := 1]
  {
    assert [0][..0] == [];
    assert Share(cfg, One(), []) == One();
    assert Share(cfg, One(), [0]) == Retain(cfg, One(), 0);
    assert map[1 := [0]][2 := [0]] == map[1 := [0], 2 := [0]];
    assert Fork(cfg, One(), 1, 2).cache == Forked();
    assert map[1 := 1][2 := 1] == map[1 := 1, 2 := 1];
  }

  lemma AppendShared(cfg: Config, w: World)
    requires cfg.totalBlocks == 2 && cfg.blockSize == 2 && Shape(cfg, w.cache)
    requires w.cache == Forked() && w.lens == map[1 := 1, 2 := 1]
    ensures var w' := Step(cfg, w, DoAppend(1, 1));
      && w'.cache.tables == map[1 := [0], 2 := [0]] && w'.lens == map[1 := 2, 2 := 1]
      && InRange([0], |w'.cache.blocks|) && Fills(w'.cache, [0]) == 2
  {
    assert Room(cfg, w.cache, 1) == 1;
    var c' := Append(cfg, w.cache, 1, 1).cache;
    assert c'.blocks == [Block(2, 2, 0, false), Block(0, 0, 0, false)];
    assert [0][..0] == [] && Fills(c', []) == 0;
    assert map[1 := 1, 2 := 1][1 := 2] == map[1 := 2, 2 := 1];
  }

  // ----- Which of two cached blocks is evicted -----

  /** Caching, and two blocks of two tokens. */
  ghost predicate TwoBlocks(cfg: Config) {
    cfg.totalBlocks == 2 && cfg.blockSize == 2 && cfg.caching && NonZeroHash(cfg) && InjectiveHash(cfg)
  }

  function TreeOne(h: nat): seq<Node> {
    [Node(0, -1, map[h := 1]), Node(h, 0, map[])]
  }

  function TreeTwo(h: nat, k: nat): seq<Node> {
    [Node(0, -1, map[h := 1, k := 2]), Node(h, 0, map[]), Node(k, 1, map[])]
  }

  function FirstUsed(h: nat): Cache {
    Cache([Block(1, 2, h, false), Block(0, 0, 0, false)], [1], [], TreeOne(h), map[1 := [0]], 0, 1, 0)
  }

  function BothUsed(h: nat, k: nat): Cache {
    Cache([Block(1, 2, h, false), Block(1, 2, k, false)], [], [], TreeTwo(h, k), map[1 := [0], 2 := [1]], 0, 2, 0)
  }

  function FirstCached(h: nat, k: nat): Cache {
    Cache([Block(0, 2, h, true), Block(1, 2, k, false)], [], [0], TreeTwo(h, k), map[2 := [1]], 0, 2, 0)
  }

  function BothCached(h: nat, k: nat): Cache {
    Cache([Block(0, 2, h, true), Block(0, 2, k, true)], [], [1, 0], TreeTwo(h, k), map[], 0, 2, 0)
  }

  lemma FirstFills(cfg: Config)
    requires TwoBlocks(cfg)
    ensures Register(cfg, Init(cfg), 1, [5, 5]) == Return(0, FirstUsed(cfg.hash([5, 5], 0)))
  {
    hide Register, NonZeroHash, InjectiveHash;
    var c, h := Init(cfg), cfg.hash([5, 5], 0);
    assert c == Cache([Block(0, 0, 0, false), Block(0, 0, 0, false)], [1, 0], [], [Node(0, -1, map[])], map[], 0, 0, 0);
    OneChunk(cfg, 5);
    assert Reach(cfg, c.tree, [[5, 5]], 1) == None;
    OneBlockPrompt(cfg, c, 1, [5, 5], 0, Pop(cfg, c));
    var c1 := Publish(cfg, Graft(cfg, HashBlock(cfg, Pop(cfg, c), 0, h), 0, h, 0), 1, [0]);
    assert c1.tree == TreeOne(h);
    assert c1 == FirstUsed(h);
  }

  lemma SecondFills(cfg: Config, h: nat, k: nat)
    requires TwoBlocks(cfg) && Shape(cfg, FirstUsed(h)) && k == cfg.hash([7, 7], 0) != h
    ensures Register(cfg, FirstUsed(h), 2, [7, 7]) == Return(0, BothUsed(h, k))
  {
    hide Register, NonZeroHash, InjectiveHash;
    var c := FirstUsed(h);
    OneChunk(cfg, 7);
    assert Reach(cfg, c.tree, [[7, 7]], 1) == None;
    OneBlockPrompt(cfg, c, 2, [7, 7], 1, Pop(cfg, c));
    var c1 := Publish(cfg, Graft(cfg, HashBlock(cfg, Pop(cfg, c), 1, k), 0, k, 1), 2, [1]);
    assert map[h := 1][k := 2] == map[h := 1, k := 2];
    assert c1.tree == TreeTwo(h, k);
    assert map[1 := [0]][2 := [1]] == map[1 := [0], 2 := [1]];
    assert c1 == BothUsed(h, k);
  }

  lemma FirstReleased(cfg: Config, h: nat, k: nat)
    requires TwoBlocks(cfg) && Shape(cfg, BothUsed(h, k)) && h != 0
    ensures Unregister(cfg, BothUsed(h, k), 1) == FirstCached(h, k)
  {
    hide NonZeroHash, InjectiveHash;
    SingleUnregister(cfg, BothUsed(h, k), 1, 0);
    assert map[1 := [0], 2 := [1]] - {1} == map[2 := [1]];
    assert Release(cfg, BothUsed(h, k), 0).(tables := map[2 := [1]]) == FirstCached(h, k);
  }

  lemma SecondReleased(cfg: Config, h: nat, k: nat)
    requires TwoBlocks(cfg) && Shape(cfg, FirstCached(h, k)) && k != 0
    ensures Unregister(cfg, FirstCached(h, k), 2) == BothCached(h, k)
  {
    hide NonZeroHash, InjectiveHash;
    SingleUnregister(cfg, FirstCached(h, k), 2, 1);
    assert map[2 := [1]] - {2} == map[];
    assert Release(cfg, FirstCached(h, k), 1).(tables := map[]) == BothCached(h, k);
  }

  lemma ThirdEvicts(cfg: Config, h: nat, k: nat)
    requires TwoBlocks(cfg) && Shape(cfg, BothCached(h, k))
    requires cfg.hash([9, 9], 0) != h && cfg.hash([9, 9], 0) != k
    ensures var r := Register(cfg, BothCached(h, k), 3, [9, 9]); r.Return? && r.cache.tables == map[3 := [0]]
  {
    hide Register, NonZeroHash, InjectiveHash;
    var c := BothCached(h, k);
    OneChunk(cfg, 9);
    assert Reach(cfg, c.tree, [[9, 9]], 1) == None;
    assert Victim(cfg, c, 2) == Some(1);
    var c1 := Allocate(cfg, c).cache;
    OneBlockPrompt(cfg, c, 3, [9, 9], 0, c1);
    assert map[][3 := [0]] == map[3 := [0]];
  }

  /** Two prompts are cached and given back one after the other; the third prompt gets the
      block that was given back first. */
  lemma OldestEvicted(cfg: Config)
    requires TwoBlocks(cfg)
    ensures var ops := [DoRegister(1, [5, 5]), DoRegister(2, [7, 7]), DoUnregister(1), DoUnregister(2),
                        DoRegister(3, [9, 9])];
      Run(cfg, ops).cache.tables == map[3 := [0]]
  {
    hide Shape, Register, Unregister, Step, Run, FirstUsed, BothUsed, FirstCached, BothCached;
    var h, k := cfg.hash([5, 5], 0), cfg.hash([7, 7], 0);
    var u1 := [DoRegister(1, [5, 5])];
    var u2 := [DoRegister(1, [5, 5]), DoRegister(2, [7, 7])];
    var u3 := [DoRegister(1, [5, 5]), DoRegister(2, [7, 7]), DoUnregister(1)];
    var u4 := [DoRegister(1, [5, 5]), DoRegister(2, [7, 7]), DoUnregister(1), DoUnregister(2)];
    var u5 := [DoRegister(1, [5, 5]), DoRegister(2, [7, 7]), DoUnregister(1), DoUnregister(2), DoRegister(3, [9, 9])];
    assert u1 == [] + [DoRegister(1, [5, 5])] && u2 == u1 + [DoRegister(2, [7, 7])] && u3 == u2 + [DoUnregister(1)];
    assert u4 == u3 + [DoUnregister(2)] && u5 == u4 + [DoRegister(3, [9, 9])];
    TablesOf(h, k);
    InitEmpty(cfg);
    FirstFills(cfg);
    RunNext(cfg, [], DoRegister(1, [5, 5]));
    StepIsRegister(cfg, Run(cfg, []), 1, [5, 5]);
    SecondFills(cfg, h, k);
    RunNext(cfg, u1, DoRegister(2, [7, 7]));
    StepIsRegister(cfg, Run(cfg, u1), 2, [7, 7]);
    FirstReleased(cfg, h, k);
    RunNext(cfg, u2, DoUnregister(1));
    StepIsUnregister(cfg, Run(cfg, u2), 1);
    SecondReleased(cfg, h, k);
    RunNext(cfg, u3, DoUnregister(2));
    StepIsUnregister(cfg, Run(cfg, u3), 2);
    ThirdEvicts(cfg, h, k);
    RunNext(cfg, u4, DoRegister(3, [9, 9]));
    StepIsRegister(cfg, Run(cfg, u4), 3, [9, 9]);
  }

  lemma TablesOf(h: nat, k: nat)
    ensures 2 !in FirstUsed(h).tables && 3 !in BothCached(h, k).tables
  {
  }

  lemma StepIsUnregister(cfg: Config, w: World, id: nat)
    requires Shape(cfg, w.cache)
    ensures Step(cfg, w, DoUnregister(id)).cache == Unregister(cfg, w.cache, id)
  {
    hide Shape, Unregister;
  }
}
