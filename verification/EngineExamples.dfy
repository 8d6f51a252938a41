/** Concrete engines on which the coupling fails: an empty prompt, and steps that run out
    of pages. Each is an instance of a theorem that says exactly when it happens. */
module EngineExamples {
  import opened Wrappers
  import opened Batching
  import opened Running
  import opened RunningRuns
  import opened Engine
  import opened EngineProofs
  import opened EngineExact
  import opened EngineRuns
  import opened PagedKvPrefix
  import PagedKvSound
  import PagedKvOps
  import PagedKvSpare
  import Kv = PagedKv
  import Pages = PagedKvRuns
  import PagedKvTheorems
  import PagedKvExamples
  import PagedKvOwnership

  /** An empty prompt on a new engine gets a page table but no request. */
  lemma EmptyPromptExample(cfg: Kv.Config, maxSeqs: nat, budget: nat, vocab: Vocab, eos: int, p: Params)
    requires cfg.totalBlocks >= 1 && p.maxTokens >= -0x8000_0000
    ensures var e := Begin(cfg, maxSeqs, budget, vocab, eos);
      && EngineShape(cfg, e) && 1 !in e.run.r.batcher.requests
      && var c := AddRequest(cfg, e, [], p, 0);
         c.Done? && 1 in c.engine.active && 1 !in c.engine.run.r.batcher.requests
  {
    hide RunOk, AddRequest, Kv.Register, Kv.Init, Tracked, Exact, PagedKvSound.Sound, Kv.Shape, PagedKvSpare.RunsOut;
    var e := Begin(cfg, maxSeqs, budget, vocab, eos);
    BeginCoupled(cfg, maxSeqs, budget, vocab, eos);
    EmptyFits(cfg);
    AddKeeps(cfg, e, [], p, 0);
    AddRaises(cfg, e, [], p, 0);
  }

  lemma EmptyFits(cfg: Kv.Config)
    requires cfg.totalBlocks >= 1
    ensures var c := Kv.Init(cfg);
      && PagedKvSound.Sound(cfg, c, multiset{}) && PagedKvOps.Walkable(cfg, c, [])
      && !PagedKvSpare.RunsOut(cfg, c, [])
  {
    PagedKvSound.InitSound(cfg);
    PagedKvExamples.InitWalk(cfg, []);
    assert Kv.Chunks([], cfg.blockSize) == [];
    hide PagedKvSound.Sound, Kv.Shape, PagedKvOps.Hits;
  }

  // ----- One block, and a prompt that fills it -----

  function Job(limit: int): Params {
    Params(limit, 0, {})
  }

  function NewRequest(limit: int): Request {
    Request([5, 5], [], limit, 0, 0, Waiting)
  }

  /** Caching, one block of two tokens, and a hash without collisions. */
  ghost predicate Tight(cfg: Kv.Config) {
    PagedKvTheorems.OneBlock(cfg) && InjectiveHash(cfg)
  }

  /** What add_request makes of an engine when the registration returns. */
  lemma AddedEngine(cfg: Kv.Config, e: Engine, limit: int)
    requires EngineShape(cfg, e) && Unused(e.run, e.counter + 1) && limit >= 0
    requires Kv.Register(cfg, e.kv.cache, e.counter + 1, [5, 5]).Return?
    ensures BatcherOk(e.run.r.batcher)
    ensures var id, c := e.counter + 1, AddRequest(cfg, e, [5, 5], Job(limit), 0);
      var b := Add(e.run.r.batcher, id, NewRequest(limit)).1;
      && c.Done? && c.value == id
      && c.engine == Engine(id, e.active[id := Job(limit)], Pages.Step(cfg, e.kv, Pages.DoRegister(id, [5, 5])),
                            e.run.(r := e.run.r.(batcher := b)))
  {
    hide Kv.Shape, RunOk, Kv.Register, Pages.Step, BatcherOk, Add;
    RunOkParts(e.run);
  }

  /** Without forks and evictions the cache is in order. */
  lemma EvictionFreeFine(cfg: Kv.Config, ops: seq<Pages.Op>)
    requires cfg.caching && NonZeroHash(cfg) && InjectiveHash(cfg)
    requires Pages.NoForks(ops) && Pages.Run(cfg, ops).cache.evictions == 0
    ensures Fine(cfg, Pages.Run(cfg, ops))
  {
    hide NonZeroHash, InjectiveHash, Pages.Run, Pages.NoForks, PagedKvTheorems.Healthy, PagedKvOwnership.Solo;
    Pages.EvictionFreeRun(cfg, ops);
    PagedKvTheorems.NoForksUnshared(cfg, ops);
    PagedKvTheorems.RunHealthy(cfg, ops);
  }

  /** A step of an engine without a spare block, one sequence of which needs one. */
  lemma StepFails(cfg: Kv.Config, e: Engine, id: nat)
    requires Coupled(cfg, e) && Fine(cfg, e.kv) && Starves(cfg, e, id) && PagedKvSpare.Spare(e.kv.cache) == 0
    ensures EngineShape(cfg, e)
    ensures var c := StepCall(cfg, e); c.Raised? && !Sized(c.engine) && (SameIds(c.engine) <==> !SomeEnds(e))
  {
    hide StepCall, Fine, SameIds, Sized, EngineShape, Tracked, Exact, Starves, SomeEnds;
    StarvesTable(cfg, e, id);
    StepCoupledIff(cfg, e);
    StepSetsIff(cfg, e);
    StepDoneIff(cfg, e);
    HasMember(Starved(cfg, e), id);
  }

  lemma StarvesTable(cfg: Kv.Config, e: Engine, id: nat)
    requires Starves(cfg, e, id)
    ensures id in e.kv.cache.tables && EngineShape(cfg, e)
  {
  }

  // ----- A step that raises and leaves the sets equal -----

  lemma OneInBatch(maxSeqs: nat, budget: nat)
    requires maxSeqs >= 1 && budget >= 2
    ensures var b := First(maxSeqs, budget, 5); BatcherOk(b) && InBatch(b, 1)
  {
    var b := First(maxSeqs, budget, 5);
    assert Filter(b) == b by {
      assert Dropped(b, 0) == {} && MarkFinished(b.requests, {}) == b.requests;
    }
    assert Judge(b, 0) == Seat && Top(b.requests, b.waiting) == 1;
    var b1 := Apply(b, Seat);
    assert b1.waiting == [] && Judge(b1, 2) == Stop;
    assert Admit(b1, 2, [1]).prefill == [1];
    assert [] + [1] == [1];
    assert Schedule(b).prefill == [1];
  }

  /** The cache after the first registration. */
  lemma FirstWorld(cfg: Kv.Config)
    requires Tight(cfg)
    ensures var ops := [Pages.DoRegister(1, [5, 5])]; var w := Pages.Run(cfg, ops);
      && w == Pages.Step(cfg, Pages.Run(cfg, []), Pages.DoRegister(1, [5, 5]))
      && w.cache == PagedKvTheorems.InUseBlock(cfg.hash([5, 5], 0)) && Fine(cfg, w)
  {
    var ops := [Pages.DoRegister(1, [5, 5])];
    hide Kv.Shape, Kv.Register, Pages.Step, Kv.Init, NonZeroHash, InjectiveHash, Fine;
    PagedKvExamples.InitEmpty(cfg);
    PagedKvTheorems.FirstPrompt(cfg);
    assert [] + ops == ops;
    PagedKvExamples.RunNext(cfg, [], ops[0]);
    PagedKvExamples.StepIsRegister(cfg, Pages.Run(cfg, []), 1, [5, 5]);
    EvictionFreeFine(cfg, ops);
  }

  function Empty(maxSeqs: nat, budget: nat): Batcher {
    Batcher(maxSeqs, budget, map[], [], [], {})
  }

  lemma BeginFields(cfg: Kv.Config, maxSeqs: nat, budget: nat, vocab: Vocab, eos: int)
    ensures var e := Begin(cfg, maxSeqs, budget, vocab, eos);
      && Coupled(cfg, e) && EngineShape(cfg, e) && Unused(e.run, 1)
      && e.counter == 0 && e.active == map[] && e.kv == Pages.Run(cfg, []) && e.kv.cache == Kv.Init(cfg)
      && e.run.r == Runner(Empty(maxSeqs, budget), vocab, eos, [], {})
  {
    BeginCoupled(cfg, maxSeqs, budget, vocab, eos);
  }

  function First(maxSeqs: nat, budget: nat, limit: int): Batcher {
    Batcher(maxSeqs, budget, map[1 := NewRequest(limit)], [1], [], {1})
  }

  lemma FirstAdded(maxSeqs: nat, budget: nat, limit: int)
    ensures Add(Empty(maxSeqs, budget), 1, NewRequest(limit)) == (true, First(maxSeqs, budget, limit))
  {
    assert [] + [1] == [1] && {} + {1} == {1};
  }

  /** An engine with one block after its first request. */
  ghost function Started(cfg: Kv.Config, maxSeqs: nat, budget: nat, vocab: Vocab, eos: int, limit: nat): (e: Engine)
    ensures EngineShape(cfg, e)
  {
    BeginFields(cfg, maxSeqs, budget, vocab, eos);
    AddRequest(cfg, Begin(cfg, maxSeqs, budget, vocab, eos), [5, 5], Job(limit), 0).engine
  }

  lemma StartedCoupled(cfg: Kv.Config, maxSeqs: nat, budget: nat, vocab: Vocab, eos: int, limit: nat)
    ensures Coupled(cfg, Started(cfg, maxSeqs, budget, vocab, eos, limit))
  {
    hide EngineShape, AddRequest, Tracked, Exact, Added, Begin, Unused;
    BeginFields(cfg, maxSeqs, budget, vocab, eos);
    AddKeeps(cfg, Begin(cfg, maxSeqs, budget, vocab, eos), [5, 5], Job(limit), 0);
  }

  lemma StartedFields(cfg: Kv.Config, maxSeqs: nat, budget: nat, vocab: Vocab, eos: int, limit: nat)
    requires Tight(cfg)
    ensures var e := Started(cfg, maxSeqs, budget, vocab, eos, limit);
      && e.active == map[1 := Job(limit)] && e.counter == 1 && e.kv == Pages.Run(cfg, [Pages.DoRegister(1, [5, 5])])
      && e.run.r == Runner(First(maxSeqs, budget, limit), vocab, eos, [], {})
  {
    hide EngineShape, AddRequest, Begin, Unused, Pages.Step, Pages.Run, Fine, Tracked, Exact, Kv.Register, Kv.Init,
      PagedKvTheorems.InUseBlock, Add, BatcherOk, NonZeroHash, InjectiveHash;
    BeginFields(cfg, maxSeqs, budget, vocab, eos);
    PagedKvTheorems.FirstPrompt(cfg);
    AddedEngine(cfg, Begin(cfg, maxSeqs, budget, vocab, eos), limit);
    FirstAdded(maxSeqs, budget, limit);
    FirstWorld(cfg);
  }

  lemma HasMember(s: set<nat>, x: nat)
    requires x in s
    ensures |s| > 0
  {
  }

  lemma FirstStarves(cfg: Kv.Config, e: Engine, maxSeqs: nat, budget: nat, vocab: Vocab, eos: int, hv: nat)
    requires EngineShape(cfg, e) && cfg.blockSize == 2 && maxSeqs >= 1 && budget >= 2 && eos != Next(vocab, 5)
    requires e.active == map[1 := Job(5)] && e.kv.cache == PagedKvTheorems.InUseBlock(hv)
    requires e.run.r == Runner(First(maxSeqs, budget, 5), vocab, eos, [], {})
    ensures Starves(cfg, e, 1) && !SomeEnds(e) && PagedKvSpare.Spare(e.kv.cache) == 0
  {
    hide RunOk, Kv.Shape, BatcherOk, InBatch;
    OneInBatch(maxSeqs, budget);
  }

  /** One block of two tokens, one prompt of two, and a limit of five: the first token does
      not fit, the step raises, and the sequence stays one token behind; but no request
      has ended, and the three sets are the same. */
  lemma BehindExample(cfg: Kv.Config, maxSeqs: nat, budget: nat, vocab: Vocab, eos: int)
    requires Tight(cfg) && maxSeqs >= 1 && budget >= 2 && eos != Next(vocab, 5)
    ensures var c := StepCall(cfg, Started(cfg, maxSeqs, budget, vocab, eos, 5));
      c.Raised? && SameIds(c.engine) && !Sized(c.engine)
  {
    hide Started, StepCall, Coupled, Fine, Pages.Run, SameIds, Sized, InjectiveHash, NonZeroHash, EngineShape, Starves,
      SomeEnds, First, PagedKvTheorems.InUseBlock, PagedKvSpare.Spare;
    var e := Started(cfg, maxSeqs, budget, vocab, eos, 5);
    StartedCoupled(cfg, maxSeqs, budget, vocab, eos, 5);
    StartedFields(cfg, maxSeqs, budget, vocab, eos, 5);
    FirstWorld(cfg);
    FirstStarves(cfg, e, maxSeqs, budget, vocab, eos, cfg.hash([5, 5], 0));
    StepFails(cfg, e, 1);
  }

  // ----- A step that raises and separates the sets -----

  function Shared(hv: nat): Kv.Cache {
    Kv.Cache([Kv.Block(2, 2, hv, false)], [], [], PagedKvTheorems.StaleTree(hv), map[1 := [0], 2 := [0]], 1, 1, 0)
  }

  /** The same prompt again shares the block. */
  lemma SecondPrompt(cfg: Kv.Config, hv: nat)
    requires Tight(cfg) && hv == cfg.hash([5, 5], 0) && Kv.Shape(cfg, PagedKvTheorems.InUseBlock(hv))
    ensures Kv.Register(cfg, PagedKvTheorems.InUseBlock(hv), 2, [5, 5]) == Kv.Return(2, Shared(hv))
  {
    var c, q := PagedKvTheorems.InUseBlock(hv), Kv.Chunks([5, 5], 2);
    PagedKvTheorems.OneChunk(cfg, 5);
    assert Kv.Reach(cfg, c.tree, q, 1) == Some(1);
    assert Kv.Lookup(cfg, c.tree, q) == 1;
    assert Kv.HitBlocks(cfg, c.tree, q, 1) == [0];
    var c1 := c.(blocks := [Kv.Block(2, 2, hv, false)], hits := 1);
    assert Kv.ClaimAll(cfg, c, [0]) == Kv.Claim(cfg, c, 0) == c1;
    assert Kv.Prepared(cfg, c, [5, 5]) == Kv.Filling(true, c1, [0], 1);
    assert map[1 := [0]][2 := [0]] == map[1 := [0], 2 := [0]];
    assert Kv.Publish(cfg, c1, 2, [0]) == Shared(hv);
  }

  lemma BlockParts(hv: nat)
    ensures 2 !in PagedKvTheorems.InUseBlock(hv).tables && Shared(hv).evictions == 0
  {
  }

  const BOTH: seq<Pages.Op> := [Pages.DoRegister(1, [5, 5]), Pages.DoRegister(2, [5, 5])]

  lemma SecondWorld(cfg: Kv.Config, first: seq<Pages.Op>)
    requires Tight(cfg) && first == [Pages.DoRegister(1, [5, 5])]
    ensures Kv.Register(cfg, Pages.Run(cfg, first).cache, 2, [5, 5]).Return?
    ensures Pages.Run(cfg, BOTH) == Pages.Step(cfg, Pages.Run(cfg, first), Pages.DoRegister(2, [5, 5]))
    ensures Pages.Run(cfg, BOTH).cache == Shared(cfg.hash([5, 5], 0))
  {
    hide Kv.Shape, Kv.Register, Pages.Step, Pages.Run, NonZeroHash, InjectiveHash, Fine, Shared,
      PagedKvTheorems.InUseBlock;
    FirstWorld(cfg);
    BlockParts(cfg.hash([5, 5], 0));
    SecondPrompt(cfg, cfg.hash([5, 5], 0));
    assert BOTH == first + [Pages.DoRegister(2, [5, 5])];
    PagedKvExamples.RunNext(cfg, first, Pages.DoRegister(2, [5, 5]));
    PagedKvExamples.StepIsRegister(cfg, Pages.Run(cfg, first), 2, [5, 5]);
  }

  lemma SecondFine(cfg: Kv.Config)
    requires Tight(cfg) && Pages.Run(cfg, BOTH).cache == Shared(cfg.hash([5, 5], 0))
    ensures Fine(cfg, Pages.Run(cfg, BOTH))
  {
    hide Pages.Run, NonZeroHash, InjectiveHash, Fine;
    EvictionFreeFine(cfg, BOTH);
  }

  function Second(maxSeqs: nat, budget: nat): Batcher {
    Batcher(maxSeqs, budget, map[1 := NewRequest(1), 2 := NewRequest(5)], [1, 2], [], {1, 2})
  }

  lemma SecondAdded(maxSeqs: nat, budget: nat)
    ensures Add(First(maxSeqs, budget, 1), 2, NewRequest(5)) == (true, Second(maxSeqs, budget))
  {
    assert [1] + [2] == [1, 2] && {1} + {2} == {1, 2};
    assert map[1 := NewRequest(1)][2 := NewRequest(5)] == map[1 := NewRequest(1), 2 := NewRequest(5)];
  }

  lemma SecondOk(maxSeqs: nat, budget: nat)
    ensures BatcherOk(Second(maxSeqs, budget))
  {
  }

  lemma SecondFilter(maxSeqs: nat, budget: nat)
    requires BatcherShape(Second(maxSeqs, budget))
    ensures Filter(Second(maxSeqs, budget)) == Second(maxSeqs, budget)
  {
    var b := Second(maxSeqs, budget);
    assert Dropped(b, 0) == {} && MarkFinished(b.requests, {}) == b.requests;
  }

  /** The second of the two is admitted after the first. */
  lemma SecondSeat(b: Batcher)
    requires b.waiting == [2] && 2 in b.requests && b.requests[2] == NewRequest(5)
    requires |b.running| == 1 && b.maxSeqs >= 2 && b.budget >= 4
    ensures Admit(b, 2, [1]).prefill == [1, 2]
  {
    assert Judge(b, 2) == Seat && Top(b.requests, b.waiting) == 2;
    var b1 := Apply(b, Seat);
    assert b1.waiting == [] && Judge(b1, 4) == Stop;
    assert [1] + [2] == [1, 2];
    assert Admit(b1, 4, [1, 2]).prefill == [1, 2];
  }

  lemma BothInBatch(maxSeqs: nat, budget: nat)
    requires maxSeqs >= 2 && budget >= 4
    ensures var b := Second(maxSeqs, budget); BatcherOk(b) && InBatch(b, 1) && InBatch(b, 2)
  {
    hide BatcherOk, BatcherShape, Filter;
    var b := Second(maxSeqs, budget);
    SecondOk(maxSeqs, budget);
    OkShapes(b);
    SecondFilter(maxSeqs, budget);
    assert b.waiting[..1] == [1];
    assert Judge(b, 0) == Seat && Top(b.requests, b.waiting) == 1;
    var b1 := Apply(b, Seat);
    assert b1.waiting == [2] && b1.requests[2] == NewRequest(5);
    SecondSeat(b1);
    assert [] + [1] == [1];
    assert Schedule(b).prefill == [1, 2];
  }

  /** The engine after its second request. */
  ghost function StartedBoth(cfg: Kv.Config, maxSeqs: nat, budget: nat, vocab: Vocab, eos: int): (e: Engine)
    ensures EngineShape(cfg, e)
  {
    StartedCoupled(cfg, maxSeqs, budget, vocab, eos, 1);
    AddFresh(cfg, Started(cfg, maxSeqs, budget, vocab, eos, 1));
    AddRequest(cfg, Started(cfg, maxSeqs, budget, vocab, eos, 1), [5, 5], Job(5), 0).engine
  }

  lemma BothCoupled(cfg: Kv.Config, maxSeqs: nat, budget: nat, vocab: Vocab, eos: int)
    ensures Coupled(cfg, StartedBoth(cfg, maxSeqs, budget, vocab, eos))
  {
    hide EngineShape, AddRequest, Tracked, Exact, Added, Started, Unused;
    StartedCoupled(cfg, maxSeqs, budget, vocab, eos, 1);
    AddKeeps(cfg, Started(cfg, maxSeqs, budget, vocab, eos, 1), [5, 5], Job(5), 0);
  }

  lemma BothFields(cfg: Kv.Config, maxSeqs: nat, budget: nat, vocab: Vocab, eos: int)
    requires Tight(cfg)
    ensures var e := StartedBoth(cfg, maxSeqs, budget, vocab, eos);
      && e.active == map[1 := Job(1), 2 := Job(5)] && e.kv.cache == Shared(cfg.hash([5, 5], 0)) && Fine(cfg, e.kv)
      && e.run.r == Runner(Second(maxSeqs, budget), vocab, eos, [], {})
  {
    hide EngineShape, AddRequest, Started, Unused, Pages.Step, Pages.Run, Fine, Tracked, Exact, Kv.Register,
      Shared, Add, BatcherOk, NonZeroHash, InjectiveHash;
    var e := Started(cfg, maxSeqs, budget, vocab, eos, 1);
    StartedCoupled(cfg, maxSeqs, budget, vocab, eos, 1);
    AddFresh(cfg, e);
    StartedFields(cfg, maxSeqs, budget, vocab, eos, 1);
    SecondWorld(cfg, [Pages.DoRegister(1, [5, 5])]);
    SecondFine(cfg);
    AddedEngine(cfg, e, 5);
    SecondAdded(maxSeqs, budget);
    assert map[1 := Job(1)][2 := Job(5)] == map[1 := Job(1), 2 := Job(5)];
  }

  lemma BothStarve(cfg: Kv.Config, e: Engine, maxSeqs: nat, budget: nat, vocab: Vocab, eos: int, hv: nat)
    requires EngineShape(cfg, e) && cfg.blockSize == 2 && maxSeqs >= 2 && budget >= 4 && eos != Next(vocab, 5)
    requires e.active == map[1 := Job(1), 2 := Job(5)] && e.kv.cache == Shared(hv)
    requires e.run.r == Runner(Second(maxSeqs, budget), vocab, eos, [], {})
    ensures Starves(cfg, e, 2) && SomeEnds(e) && PagedKvSpare.Spare(e.kv.cache) == 0
  {
    hide RunOk, Kv.Shape, BatcherOk, InBatch;
    BothInBatch(maxSeqs, budget);
    assert Ends(e, 1);
  }

  /** The same prompt twice, with limits of one and of five, on one block: the step raises
      when the second request's token does not fit, after the runner has ended the first
      request, which keeps its page table and its entry. */
  lemma SeparatedExample(cfg: Kv.Config, maxSeqs: nat, budget: nat, vocab: Vocab, eos: int)
    requires Tight(cfg) && maxSeqs >= 2 && budget >= 4 && eos != Next(vocab, 5)
    ensures var c := StepCall(cfg, StartedBoth(cfg, maxSeqs, budget, vocab, eos));
      c.Raised? && !SameIds(c.engine)
  {
    hide StartedBoth, StepCall, Coupled, Fine, Pages.Run, SameIds, Sized, InjectiveHash, NonZeroHash, EngineShape,
      Starves, SomeEnds, Second, Shared, PagedKvSpare.Spare;
    var e := StartedBoth(cfg, maxSeqs, budget, vocab, eos);
    BothCoupled(cfg, maxSeqs, budget, vocab, eos);
    BothFields(cfg, maxSeqs, budget, vocab, eos);
    BothStarve(cfg, e, maxSeqs, budget, vocab, eos, cfg.hash([5, 5], 0));
    StepFails(cfg, e, 2);
  }
}
