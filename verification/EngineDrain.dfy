/** The drain of a closed engine with no hypothesis about its run: if the pages are
    enough for the longest each active sequence can get, no step raises, and the engine
    is empty after at most the measure's number of steps. */
module EngineDrain {
  import opened Wrappers
  import opened Sums
  import opened Arithmetic
  import opened Batching
  import opened Running
  import opened RunningProofs
  import opened RunningRuns
  import opened Engine
  import opened EngineProofs
  import opened EngineExact
  import opened EngineRuns
  import opened PagedKvSpare
  import opened PagedKvChunks
  import opened PagedKvOwnership
  import PagedKvSound
  import PagedKvPrefix
  import Kv = PagedKv
  import Pages = PagedKvRuns
  import PagedKvTheorems

  // ----- Blocks in use and page tables -----

  function Lengths(tables: map<nat, seq<nat>>): map<nat, nat> {
    map id | id in tables :: |tables[id]|
  }

  lemma {:induction false} ElementsAtMost(s: seq<nat>)
    ensures |Elements(s)| <= |s|
  {
    if s != [] {
      ElementsAtMost(s[..|s| - 1]);
      assert Elements(s) == Elements(s[..|s| - 1]) + {s[|s| - 1]};
    }
  }

  lemma UnionSize(a: set<nat>, b: set<nat>)
    ensures |a + b| <= |a| + |b|
  {
    assert a + b == a + (b - a) && |b - a| <= |b| by {
      assert b == (b - a) + (b * a);
    }
  }

  /** Blocks that all occur in page tables are no more than there are entries. */
  lemma {:induction false} EntriesCover(tables: map<nat, seq<nat>>, s: set<nat>)
    requires forall b :: b in s ==> exists id :: id in tables && b in tables[id]
    ensures |s| <= Total(Lengths(tables))
    decreases |tables|
  {
    if tables == map[] {
      assert s == {};
    } else {
      var id :| id in tables;
      var rest := tables - {id};
      assert rest.Keys == tables.Keys - {id};
      var e := Elements(tables[id]);
      forall b | b in s - e ensures exists k :: k in rest && b in rest[k] {
        var k :| k in tables && b in tables[k];
        assert k in rest && b in rest[k];
      }
      EntriesCover(rest, s - e);
      ElementsAtMost(tables[id]);
      UnionSize(s - e, e);
      assert s <= (s - e) + e;
      SubsetAtMost(s, (s - e) + e);
      TotalRemove(Lengths(tables), id);
      assert Lengths(tables) - {id} == Lengths(rest);
    }
  }

  lemma SubsetAtMost(a: set<nat>, b: set<nat>)
    requires a <= b
    ensures |a| <= |b|
  {
    assert b == a + (b - a);
  }

  /** When nothing has leaked, the spare blocks are those that no table entry takes. */
  lemma SpareAtLeast(cfg: Kv.Config, c: Kv.Cache)
    requires PagedKvSound.Sound(cfg, c, multiset{})
    ensures Spare(c) + Total(Lengths(c.tables)) >= cfg.totalBlocks
  {
    PagedKvTheorems.AllocatedBlocks(cfg, c, multiset{});
    forall b | b in PagedKvTheorems.InUse(c) ensures exists id :: id in c.tables && b in c.tables[id] {
      TotalZero(PagedKvSound.Counts(c.tables, b));
      var id :| id in c.tables && PagedKvSound.Counts(c.tables, b)[id] > 0;
      assert b in multiset(c.tables[id]);
    }
    EntriesCover(c.tables, PagedKvTheorems.InUse(c));
  }

  // ----- How many blocks a sequence takes -----

  lemma BlocksForExact(k: nat, f: nat, size: Pos)
    requires 0 < f <= size
    ensures BlocksFor(Kv.TokensIn(k, size) + f, size) == k + 1
  {
    DivModUnique(Kv.TokensIn(k, size) + f + size - 1, size, k + 1, f - 1);
  }

  lemma BlocksForMonotone(a: nat, b: nat, size: Pos)
    requires a <= b
    ensures BlocksFor(a, size) <= BlocksFor(b, size)
  {
    var x, y := a + size - 1, b + size - 1;
    var d := x / size - y / size;
    assert d * size <= y % size - x % size;
    MultipleBound(d, size);
  }

  lemma TableLength(cfg: Kv.Config, c: Kv.Cache, t: seq<nat>, prompt: seq<int>, len: nat)
    requires SeqOk(cfg, c, t, prompt, len) && t != [] && len > 0
    ensures var f := c.blocks[t[|t| - 1]].filled; len == Kv.TokensIn(|t| - 1, cfg.blockSize) + f && f > 0
  {
    ContextLength(cfg, c, t);
  }

  /** The blocks a sequence has, and one more when it gets another token and its last
      block is full. */
  lemma TableBlocks(cfg: Kv.Config, c: Kv.Cache, id: nat, prompt: seq<int>, len: nat)
    requires Kv.Shape(cfg, c) && id in c.tables && len > 0 && SeqOk(cfg, c, c.tables[id], prompt, len)
    ensures |c.tables[id]| == BlocksFor(len, cfg.blockSize)
    ensures Kv.Room(cfg, c, id) == 0 ==> |c.tables[id]| + 1 == BlocksFor(len + 1, cfg.blockSize)
  {
    hide BlocksFor, Hashed, Fills, FullUpTo;
    var t := c.tables[id];
    var f := c.blocks[t[|t| - 1]].filled;
    TableLength(cfg, c, t, prompt, len);
    assert len == Kv.TokensIn(|t| - 1, cfg.blockSize) + f;
    BlocksForExact(|t| - 1, f, cfg.blockSize);
    if Kv.Room(cfg, c, id) == 0 {
      BlocksForExact(|t|, 1, cfg.blockSize);
      assert len + 1 == Kv.TokensIn(|t|, cfg.blockSize) + 1;
    }
  }

  // ----- Enough pages for every active sequence -----

  /** The most tokens a request can have in the cache. */
  function MaxLength(r: Request): nat
    requires RequestOk(r)
  {
    |r.prompt| + if Limit(r) > 1 then Limit(r) - 1 else 0
  }

  /** The most blocks each active sequence can take. */
  ghost function Needs(cfg: Kv.Config, e: Engine): map<nat, nat> {
    var requests := e.run.r.batcher.requests;
    map id | id in e.active && id in requests && RequestOk(requests[id]) ::
      BlocksFor(MaxLength(requests[id]), cfg.blockSize)
  }

  ghost predicate Roomy(cfg: Kv.Config, e: Engine) {
    Total(Needs(cfg, e)) <= cfg.totalBlocks
  }

  /** A coupled engine on a fine cache that has leaked nothing. */
  ghost predicate Clean(cfg: Kv.Config, e: Engine) {
    Coupled(cfg, e) && Fine(cfg, e.kv) && e.kv.leaked == multiset{}
  }

  /** Where an unfinished request can stand. */
  lemma UnfinishedLength(w: World, id: nat)
    requires RunOk(w) && id in w.r.batcher.requests && w.r.batcher.requests[id].state != Finished
    ensures var r := w.r.batcher.requests[id];
      && RequestOk(r) && (r.generated != [] ==> |r.generated| < Limit(r))
      && 0 < |r.prompt| + |r.generated| <= MaxLength(r)
  {
    assert Story(w, id);
  }

  function WithOnes(m: map<nat, nat>, s: set<nat>): map<nat, nat> {
    map k | k in m :: m[k] + if k in s then 1 else 0
  }

  lemma {:induction false} TotalWithOnes(m: map<nat, nat>, s: set<nat>)
    requires s <= m.Keys
    ensures Total(WithOnes(m, s)) == Total(m) + |s|
    decreases |s|
  {
    if s == {} {
      assert WithOnes(m, s) == m;
    } else {
      var k :| k in s;
      TotalWithOnes(m, s - {k});
      var w := WithOnes(m, s - {k});
      TotalInsert(w, k, m[k] + 1);
      assert w[k := m[k] + 1] == WithOnes(m, s);
    }
  }

  /** The last block is full, and the request may get another token. */
  ghost predicate CanGrow(cfg: Kv.Config, e: Engine, id: nat) {
    && Kv.Shape(cfg, e.kv.cache) && id in e.kv.cache.tables && Kv.Room(cfg, e.kv.cache, id) == 0
    && id in e.run.r.batcher.requests && RequestOk(e.run.r.batcher.requests[id])
    && var r := e.run.r.batcher.requests[id]; |r.prompt| + |r.generated| + 1 <= MaxLength(r)
  }

  /** An active sequence has, with the block it asks for, no more than it can need. */
  lemma SequenceFits(cfg: Kv.Config, e: Engine, id: nat, starving: bool)
    requires Clean(cfg, e) && id in e.active
    requires starving ==> CanGrow(cfg, e, id)
    ensures id in e.kv.cache.tables && id in Needs(cfg, e)
    ensures |e.kv.cache.tables[id]| + (if starving then 1 else 0) <= Needs(cfg, e)[id]
  {
    assert Unfinished(e, id) && Holds(e, id, e.kv.lens[id]);
    UnfinishedLength(e.run, id);
    assert id in e.kv.cache.tables.Keys;
    FineParts(cfg, e.kv);
    FineSeq(cfg, e.kv, id);
    hide Fine, RunOk, Kv.Shape, SeqOk, BlocksFor, MaxLength;
    var r, len := e.run.r.batcher.requests[id], e.kv.lens[id];
    TableBlocks(cfg, e.kv.cache, id, e.kv.prompts[id], len);
    BlocksForMonotone(len, MaxLength(r), cfg.blockSize);
    if starving {
      BlocksForMonotone(len + 1, MaxLength(r), cfg.blockSize);
    }
  }

  lemma FineSeq(cfg: Kv.Config, w: Pages.World, id: nat)
    requires Fine(cfg, w) && id in w.cache.tables
    ensures id in w.prompts && id in w.lens && SeqOk(cfg, w.cache, w.cache.tables[id], w.prompts[id], w.lens[id])
  {
  }

  /** A request whose next token is not its last one can take that token. */
  lemma StarvingFits(cfg: Kv.Config, e: Engine, id: nat)
    requires Clean(cfg, e) && id in Starved(cfg, e)
    ensures id in e.active && CanGrow(cfg, e, id)
  {
    hide Fine, Kv.Shape, RunOk, BatcherOk, InBatch, Kv.Room, Exact;
    assert id in e.kv.cache.tables.Keys && Starves(cfg, e, id);
  }

  /** With room for the longest each sequence can get, no step runs out of pages. */
  lemma RoomySuffices(cfg: Kv.Config, e: Engine)
    requires Clean(cfg, e) && Roomy(cfg, e)
    ensures PagesSuffice(cfg, e)
  {
    hide Fine, Kv.Shape, RunOk, Exact, Starves, Needs, Spare, CanGrow;
    FineParts(cfg, e.kv);
    var c, s, needs := e.kv.cache, Starved(cfg, e), Needs(cfg, e);
    var m := Lengths(c.tables);
    assert s <= m.Keys;
    TotalWithOnes(m, s);
    SpareAtLeast(cfg, c);
    forall id | id in c.tables ensures id in needs && WithOnes(m, s)[id] <= needs[id] {
      assert id in c.tables.Keys;
      if id in s {
        StarvingFits(cfg, e, id);
      }
      SequenceFits(cfg, e, id, id in s);
    }
    assert WithOnes(m, s).Keys <= needs.Keys;
    TotalMonotone(needs, WithOnes(m, s));
  }

  // ----- A step keeps all of it -----

  lemma {:induction false} AbsorbLeaks(cfg: Kv.Config, e: Engine, events: seq<Event>)
    requires EngineShape(cfg, e)
    ensures Absorb(cfg, e, events).engine.kv.leaked == e.kv.leaked
  {
    hide Kv.Shape, RunOk, Kv.Append, IsFinal;
    if events != [] {
      AbsorbLeaks(cfg, e, events[..|events| - 1]);
    }
  }

  lemma UnregisterFine(cfg: Kv.Config, w: Pages.World, id: nat)
    requires Fine(cfg, w)
    ensures Kv.Shape(cfg, w.cache)
    ensures var w' := Pages.Step(cfg, w, Pages.DoUnregister(id)); Fine(cfg, w') && w'.leaked == w.leaked
  {
    FineParts(cfg, w);
    hide Solo, PagedKvSound.Sound, Owned, PagedKvPrefix.TrieOf, Kv.Shape, Kv.Unregister;
    PagedKvTheorems.UnregisterStepOwned(cfg, w, id);
    Pages.StepSound(cfg, w, Pages.DoUnregister(id));
    UnregisterTree(cfg, w.cache, id);
  }

  lemma UnregisterTree(cfg: Kv.Config, c: Kv.Cache, id: nat)
    requires Kv.Shape(cfg, c)
    ensures Kv.Unregister(cfg, c, id).tree == c.tree
  {
  }

  lemma {:induction false} DropAllFine(cfg: Kv.Config, e: Engine, ids: seq<nat>)
    requires EngineShape(cfg, e) && Fine(cfg, e.kv)
    ensures var e' := DropAll(cfg, e, ids); Fine(cfg, e'.kv) && e'.kv.leaked == e.kv.leaked
  {
    hide Kv.Shape, RunOk, Fine, Pages.Step;
    if ids != [] {
      DropAllFine(cfg, e, ids[..|ids| - 1]);
      UnregisterFine(cfg, DropAll(cfg, e, ids[..|ids| - 1]).kv, ids[|ids| - 1]);
    }
  }

  lemma CleanUpFine(cfg: Kv.Config, e: Engine, finished: seq<nat>)
    requires EngineShape(cfg, e) && Fine(cfg, e.kv)
    ensures var e' := CleanUp(cfg, e, finished); Fine(cfg, e'.kv) && e'.kv.leaked == e.kv.leaked
  {
    hide Kv.Shape, RunOk, Fine, DropAll, Do, BatcherOk;
    if finished != [] {
      RunOkParts(e.run);
      DoOk(e.run, FinishMany(finished));
      DropAllFine(cfg, e.(run := Do(e.run, FinishMany(finished))), finished);
    }
  }

  /** What is still active has the prompt and the limit it had. */
  ghost predicate SameRequests(e: Engine, e': Engine) {
    forall id :: id in e'.active ==>
      && id in e.active && id in e.run.r.batcher.requests && id in e'.run.r.batcher.requests
      && e'.run.r.batcher.requests[id].prompt == e.run.r.batcher.requests[id].prompt
      && e'.run.r.batcher.requests[id].maxNewTokens == e.run.r.batcher.requests[id].maxNewTokens
  }

  lemma CleanedSame(e: Engine, e1: Engine, events: seq<Event>, a: Absorbed, e': Engine)
    requires Tracked(e) && Exact(e) && Forwarded(e.run.r.batcher.requests, e1.run.r.batcher.requests, events)
    requires e1 == e.(run := e1.run) && AbsorbedOk(e1, events, a) && Cleaned(a.engine, e', FinalIds(a.outputs))
    ensures SameRequests(e, e')
  {
    hide EventsOf, Lengthened, Outputs, FinalIds;
    forall id | id in e'.active
      ensures id in e.active && id in e.run.r.batcher.requests && id in e'.run.r.batcher.requests
      ensures e'.run.r.batcher.requests[id].prompt == e.run.r.batcher.requests[id].prompt
      ensures e'.run.r.batcher.requests[id].maxNewTokens == e.run.r.batcher.requests[id].maxNewTokens
    {
      assert id in e.active;
      assert Unfinished(e, id);
      assert Advanced(e.run.r.batcher.requests[id], e1.run.r.batcher.requests[id], EventsOf(events, id));
    }
  }

  lemma SameNeeds(cfg: Kv.Config, e: Engine, e': Engine)
    requires SameRequests(e, e') && Roomy(cfg, e)
    ensures Roomy(cfg, e')
  {
    TotalMonotone(Needs(cfg, e), Needs(cfg, e'));
  }

  /** A step of a roomy engine succeeds and leaves it roomy. */
  lemma StepRoomy(cfg: Kv.Config, e: Engine)
    requires Clean(cfg, e) && Roomy(cfg, e)
    ensures EngineShape(cfg, e) && StepCall(cfg, e).Done?
    ensures var e' := StepCall(cfg, e).engine; Clean(cfg, e') && Roomy(cfg, e')
  {
    hide Kv.Shape, RunOk, Tracked, Exact, Forwarded, Cleaned, Absorb, CleanUp, Forward, Fine, Spare, Demand, Roomy,
      SameRequests;
    hide PagesSuffice;
    RoomySuffices(cfg, e);
    StepDoneIff(cfg, e);
    StepCoupledIff(cfg, e);
    TrackedParts(e);
    ForwardOk(e);
    var (run, events) := Forward(e);
    var e1 := e.(run := run);
    EventsActive(e, run.r.batcher.requests, events);
    AbsorbOk(cfg, e1, events);
    var a := Absorb(cfg, e1, events);
    AbsorbLeaks(cfg, e1, events);
    ForwardedListed(e.run.r.batcher.requests, run.r.batcher.requests, events);
    FinalsListed(e.active, events, run.r.batcher.requests.Keys);
    CleanUpOk(cfg, a.engine, FinalIds(a.outputs));
    CleanUpFine(cfg, a.engine, FinalIds(a.outputs));
    CleanedSame(e, e1, events, a, CleanUp(cfg, a.engine, FinalIds(a.outputs)));
    SameNeeds(cfg, e, CleanUp(cfg, a.engine, FinalIds(a.outputs)));
  }

  lemma {:induction false} RoomyRuns(cfg: Kv.Config, e: Engine, n: nat) returns (e': Engine)
    requires Clean(cfg, e) && Roomy(cfg, e)
    ensures QuietSteps(cfg, e, n, e') && Clean(cfg, e')
    decreases n
  {
    hide Clean, Roomy, StepCall, EngineShape;
    if n == 0 {
      e' := e;
    } else {
      StepRoomy(cfg, e);
      e' := RoomyRuns(cfg, StepCall(cfg, e).engine, n - 1);
    }
  }

  /** A closed engine whose pages hold every active sequence at its longest runs n
      steps without an exception, for every n; once n reaches the measure, no request
      is active, no page table is left, and every block is free or cached. */
  lemma EngineEmpties(cfg: Kv.Config, e: Engine, n: nat) returns (e': Engine)
    requires Clean(cfg, e) && Roomy(cfg, e) && BatcherOk(e.run.r.batcher) && Drainable(e.run.r.batcher)
    requires n >= Measure(e.run.r.batcher)
    ensures QuietSteps(cfg, e, n, e') && Drained(e')
    ensures |e'.kv.cache.free| + |e'.kv.cache.lru| == cfg.totalBlocks
  {
    hide Covered, Exact, Roomy, Fine, QuietSteps, Drainable, Measure, BatcherOk;
    e' := RoomyRuns(cfg, e, n);
    EngineDrains(cfg, e, n, e');
    FineParts(cfg, e'.kv);
    hide Kv.Shape, PagedKvSound.Sound;
    EmptyTables(cfg, e'.kv.cache);
    PagedKvTheorems.AllocatedBlocks(cfg, e'.kv.cache, multiset{});
  }

  // ----- From the start -----

  /** An engine that was reached without a step that raised, whose prompts walked live
      nodes, is clean if nothing has leaked. */
  lemma ReachedClean(cfg: Kv.Config, maxSeqs: nat, budget: nat, vocab: Vocab, eos: int, calls: seq<Call>, e: Engine)
    requires Reached(cfg, Begin(cfg, maxSeqs, budget, vocab, eos), calls, Promise(true, true), e)
    requires cfg.caching ==> PagedKvPrefix.NonZeroHash(cfg) && PagedKvPrefix.InjectiveHash(cfg)
    requires e.kv.leaked == multiset{}
    ensures Clean(cfg, e)
  {
    hide Reached, Coupled, PagedKvTheorems.Healthy, Solo, Pages.Run, Pages.RunLive, Pages.RunUnshared, Pages.NoForks,
      PagedKvPrefix.NonZeroHash, PagedKvPrefix.InjectiveHash;
    EngineRun(cfg, maxSeqs, budget, vocab, eos, calls, Promise(true, true), e);
    EngineKvRun(cfg, maxSeqs, budget, vocab, eos, calls, Promise(true, true), e);
    var ops: seq<Pages.Op> :| Pages.NoForks(ops) && Pages.RunLive(cfg, ops) && e.kv == Pages.Run(cfg, ops);
    PagedKvTheorems.NoForksUnshared(cfg, ops);
    PagedKvTheorems.RunHealthy(cfg, ops);
  }

  /** From the start: after any such run, an engine whose pages are enough and whose
      waiting prompts fit the budget empties, and gets every block back. */
  lemma ReachedEmpties(cfg: Kv.Config, maxSeqs: nat, budget: nat, vocab: Vocab, eos: int, calls: seq<Call>, e: Engine,
                       n: nat)
    returns (e': Engine)
    requires Reached(cfg, Begin(cfg, maxSeqs, budget, vocab, eos), calls, Promise(true, true), e)
    requires cfg.caching ==> PagedKvPrefix.NonZeroHash(cfg) && PagedKvPrefix.InjectiveHash(cfg)
    requires e.kv.leaked == multiset{} && Roomy(cfg, e)
    requires Drainable(e.run.r.batcher) && BatcherShape(e.run.r.batcher) && n >= Measure(e.run.r.batcher)
    ensures QuietSteps(cfg, e, n, e') && Drained(e')
    ensures |e'.kv.cache.free| + |e'.kv.cache.lru| == cfg.totalBlocks
  {
    hide Reached, Exact, Tracked, Kv.Shape, Fine, Roomy, Drainable, Measure, QuietSteps, Drained, Ok,
      PagedKvPrefix.NonZeroHash, PagedKvPrefix.InjectiveHash;
    ReachedClean(cfg, maxSeqs, budget, vocab, eos, calls, e);
    RunOkParts(e.run);
    e' := EngineEmpties(cfg, e, n);
  }
}
