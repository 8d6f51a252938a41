/** Whole runs of engine calls: the coupling over every run, what the KV cache
    holds for each request, and the drain of a closed engine. */
module EngineRuns {
  import opened Wrappers
  import opened Sums
  import opened Batching
  import opened BatchingProofs
  import opened Running
  import opened RunningProofs
  import opened RunningRuns
  import opened Engine
  import opened EngineProofs
  import Kv = PagedKv
  import Pages = PagedKvRuns
  import opened PagedKvPrefix
  import opened PagedKvContent
  import PagedKvSound
  import PagedKvTheorems

  // ----- cancel_request -----

  lemma CancelStep(w: World, id: nat)
    requires RunOk(w)
    ensures BatcherOk(w.r.batcher)
    ensures var w' := Do(w, CancelOne(id)); var s, s' := w.r.batcher.requests, w'.r.batcher.requests;
      && w'.r.queue == w.r.queue && w'.r.cancelled == w.r.cancelled + {id}
      && s'.Keys == s.Keys && (id in s ==> s'[id].state == Finished)
      && forall x :: x in s && x != id ==> s'[x] == s[x]
  {
    RunOkParts(w);
    CancelEffect(w.r.batcher, id);
    if id in w.r.batcher.requests && w.r.batcher.requests[id].state != Finished {
      UnfinishedKnown(w, id);
    }
  }

  /** Exact, apart from one request. */
  ghost predicate ExactBut(e: Engine, id: nat) {
    forall x :: x in e.active && x != id ==> Unfinished(e, x) && x in e.kv.lens && Holds(e, x, e.kv.lens[x])
  }

  lemma CancelTracked(e: Engine, e': Engine, id: nat)
    requires Tracked(e) && id <= e.counter
    requires e'.counter == e.counter && e'.run.r.queue == e.run.r.queue
    requires e'.run.r.cancelled == e.run.r.cancelled + {id}
    requires var s, s' := e.run.r.batcher.requests, e'.run.r.batcher.requests;
      s'.Keys == s.Keys && (id in s ==> s'[id].state == Finished) && forall x :: x in s && x != id ==> s'[x] == s[x]
    requires e'.active == e.active - {id} && e'.kv.lens == e.kv.lens - {id}
    requires e'.kv.cache.tables.Keys == e.kv.cache.tables.Keys - {id}
    ensures Tracked(e') && (ExactBut(e, id) ==> Exact(e'))
  {
    forall x | Unfinished(e', x) ensures x in e'.active {
      assert Unfinished(e, x);
    }
    if ExactBut(e, id) {
      forall x | x in e'.active ensures Unfinished(e', x) && x in e'.kv.lens && Holds(e', x, e'.kv.lens[x]) {
        assert Unfinished(e, x) && Holds(e, x, e.kv.lens[x]);
      }
    }
  }

  lemma ExactIsBut(e: Engine, id: nat)
    ensures Exact(e) ==> ExactBut(e, id)
  {
  }

  /** An id that is cancelled has neither a page table nor an entry afterwards. If it has
      been issued, it is enough that the other requests were in step. */
  lemma CancelCoupled(cfg: Kv.Config, e: Engine, id: nat)
    requires Covered(cfg, e)
    ensures var e' := CancelCall(cfg, e, id);
      && id !in e'.active && id !in e'.kv.cache.tables && !Unfinished(e', id)
    ensures id <= e.counter ==>
      var e' := CancelCall(cfg, e, id);
      Covered(cfg, e') && (Coupled(cfg, e) ==> Coupled(cfg, e')) && (ExactBut(e, id) ==> Coupled(cfg, e'))
  {
    hide Kv.Shape, RunOk, Tracked, Exact, ExactBut, Do, BatcherOk, Pages.Step;
    ExactIsBut(e, id);
    DoOk(e.run, CancelOne(id));
    CancelStep(e.run, id);
    UnregisterStep(cfg, e.kv, id);
    if id <= e.counter {
      CancelTracked(e, CancelCall(cfg, e, id), id);
    }
  }

  lemma EmptyAdded(e: Engine, c: Called<nat>, p: Params, arrival: nat)
    requires Tracked(e) && Exact(e) && Added(e, c, [], p, arrival) && c.Done?
    ensures c.value <= c.engine.counter && ExactBut(c.engine, c.value)
  {
    forall x | x in c.engine.active && x != c.value
      ensures Unfinished(c.engine, x) && x in c.engine.kv.lens && Holds(c.engine, x, c.engine.kv.lens[x])
    {
      assert x in e.active;
      assert Unfinished(e, x) && Holds(e, x, e.kv.lens[x]);
    }
  }

  /** Cancelling the id that an empty prompt was given puts the sets in step again. */
  lemma CancelRepairs(cfg: Kv.Config, e: Engine, p: Params, arrival: nat)
    requires Coupled(cfg, e) && p.maxTokens >= -0x8000_0000
    ensures Unused(e.run, e.counter + 1) && EngineShape(cfg, e)
    ensures var c := AddRequest(cfg, e, [], p, arrival);
      c.Done? ==> EngineShape(cfg, c.engine) && Coupled(cfg, CancelCall(cfg, c.engine, c.value))
  {
    hide EngineShape, AddRequest, CancelCall, Tracked, Exact, ExactBut, Added;
    AddKeeps(cfg, e, [], p, arrival);
    var c := AddRequest(cfg, e, [], p, arrival);
    if c.Done? {
      EmptyAdded(e, c, p, arrival);
      CancelCoupled(cfg, c.engine, c.value);
    }
  }

  // ----- Runs -----

  datatype Call =
    | AddCall(prompt: seq<int>, params: Params, arrival: nat)
    | StepOf
    | CancelOf(id: nat)

  /** Prompts are not empty, limits are 32-bit numbers, and only ids that were issued
      are cancelled. */
  ghost predicate Fair(e: Engine, call: Call) {
    match call
    case AddCall(prompt, params, _) => prompt != [] && params.maxTokens >= -0x8000_0000
    case CancelOf(id) => id <= e.counter
    case StepOf => true
  }

  /** call leads from e to e', with the exception it raises, if any. */
  ghost predicate Calls(cfg: Kv.Config, e: Engine, call: Call, error: Option<Kv.KvError>, e': Engine) {
    && EngineShape(cfg, e) && Fair(e, call)
    && match call
       case AddCall(prompt, params, arrival) =>
         && Unused(e.run, e.counter + 1)
         && var c := AddRequest(cfg, e, prompt, params, arrival);
            e' == c.engine && error == if c.Raised? then Some(c.error) else None
       case CancelOf(id) => e' == CancelCall(cfg, e, id) && error == None
       case StepOf =>
         var c := StepCall(cfg, e);
         e' == c.engine && error == if c.Raised? then Some(c.error) else None
  }

  /** What a run promises. quiet: no step in it raises; live: every prompt that is added
      walks live nodes of the prefix tree. */
  datatype Promise = Promise(quiet: bool, live: bool)

  ghost predicate Kept(cfg: Kv.Config, p: Promise, e: Engine, call: Call, error: Option<Kv.KvError>) {
    && (p.quiet && call.StepOf? ==> error == None)
    && (p.live && call.AddCall? && cfg.caching ==>
          Kv.Shape(cfg, e.kv.cache) && WalkLive(cfg, e.kv.cache, call.prompt))
  }

  ghost predicate Reached(cfg: Kv.Config, e0: Engine, calls: seq<Call>, p: Promise, e: Engine) {
    if calls == [] then e == e0
    else
      var u, call := calls[..|calls| - 1], calls[|calls| - 1];
      exists e1, error :: Reached(cfg, e0, u, p, e1) && Calls(cfg, e1, call, error, e) && Kept(cfg, p, e1, call, error)
  }

  lemma CallCoupled(cfg: Kv.Config, e: Engine, call: Call, error: Option<Kv.KvError>, e': Engine)
    requires Covered(cfg, e) && Calls(cfg, e, call, error, e')
    ensures Covered(cfg, e') && (error == None || error == Some(Kv.OutOfPages))
    ensures Coupled(cfg, e) && (call.StepOf? ==> error == None) ==> Coupled(cfg, e')
  {
    hide EngineShape, Tracked, Exact, StepCall, AddRequest, CancelCall;
    match call
    case AddCall(prompt, params, arrival) => AddKeeps(cfg, e, prompt, params, arrival);
    case CancelOf(id) => CancelCoupled(cfg, e, id);
    case StepOf => StepCoupled(cfg, e);
  }

  /** In every run no unfinished request lacks its page table, and while no step
      has run out of pages, the ids with a page table, the active requests and the
      unfinished requests are the same, with nothing left in the stream buffer. */
  lemma {:induction false} EngineRun(cfg: Kv.Config, maxSeqs: nat, budget: nat, vocab: Vocab, eos: int,
                                     calls: seq<Call>, p: Promise, e: Engine)
    requires Reached(cfg, Begin(cfg, maxSeqs, budget, vocab, eos), calls, p, e)
    ensures Covered(cfg, e) && (p.quiet ==> Coupled(cfg, e))
  {
    hide Covered, Calls, Exact;
    var e0 := Begin(cfg, maxSeqs, budget, vocab, eos);
    if calls == [] {
      BeginCoupled(cfg, maxSeqs, budget, vocab, eos);
    } else {
      var u, call := calls[..|calls| - 1], calls[|calls| - 1];
      var e1, error :| Reached(cfg, e0, u, p, e1) && Calls(cfg, e1, call, error, e) && Kept(cfg, p, e1, call, error);
      EngineRun(cfg, maxSeqs, budget, vocab, eos, u, p, e1);
      CallCoupled(cfg, e1, call, error, e);
    }
  }

  // ----- The KV cache of an engine -----

  /** The engine drives the cache through an ordinary run without forks, whose
      registrations walk live nodes if the prompts added do. */
  ghost predicate KvRun(cfg: Kv.Config, w: Pages.World, live: bool) {
    exists ops: seq<Pages.Op> :: Pages.NoForks(ops) && (live ==> Pages.RunLive(cfg, ops)) && w == Pages.Run(cfg, ops)
  }

  lemma KvRunStep(cfg: Kv.Config, w: Pages.World, live: bool, op: Pages.Op)
    requires KvRun(cfg, w, live) && !op.DoFork? && Kv.Shape(cfg, w.cache)
    requires live ==> Pages.StepLive(cfg, w, op)
    ensures KvRun(cfg, Pages.Step(cfg, w, op), live)
  {
    hide Kv.Shape, Pages.Step, Pages.StepLive;
    var ops: seq<Pages.Op> :| Pages.NoForks(ops) && (live ==> Pages.RunLive(cfg, ops)) && w == Pages.Run(cfg, ops);
    var all := ops + [op];
    assert all[..|all| - 1] == ops;
    assert Pages.NoForks(all) && Pages.Step(cfg, w, op) == Pages.Run(cfg, all);
    assert live ==> Pages.RunLive(cfg, all);
  }

  lemma {:induction false} AbsorbKvRun(cfg: Kv.Config, e: Engine, live: bool, events: seq<Event>)
    requires EngineShape(cfg, e) && KvRun(cfg, e.kv, live)
    ensures KvRun(cfg, Absorb(cfg, e, events).engine.kv, live)
  {
    hide KvRun, Kv.Shape, RunOk, Pages.Step, Kv.Append;
    if events != [] {
      var ev := events[|events| - 1];
      AbsorbKvRun(cfg, e, live, events[..|events| - 1]);
      KvRunStep(cfg, Absorb(cfg, e, events[..|events| - 1]).engine.kv, live, Pages.DoAppend(ev.id, 1));
    }
  }

  lemma {:induction false} DropAllKvRun(cfg: Kv.Config, e: Engine, live: bool, ids: seq<nat>)
    requires EngineShape(cfg, e) && KvRun(cfg, e.kv, live)
    ensures KvRun(cfg, DropAll(cfg, e, ids).kv, live)
  {
    hide KvRun, Kv.Shape, RunOk, Pages.Step;
    if ids != [] {
      DropAllKvRun(cfg, e, live, ids[..|ids| - 1]);
      KvRunStep(cfg, DropAll(cfg, e, ids[..|ids| - 1]).kv, live, Pages.DoUnregister(ids[|ids| - 1]));
    }
  }

  lemma CallKvRun(cfg: Kv.Config, p: Promise, e: Engine, call: Call, error: Option<Kv.KvError>, e': Engine)
    requires KvRun(cfg, e.kv, p.live) && Calls(cfg, e, call, error, e') && Kept(cfg, p, e, call, error)
    ensures KvRun(cfg, e'.kv, p.live)
  {
    hide KvRun, Pages.Step, Kv.Register, RunOk, Do, Kv.Shape, Allowed, BatcherOk, WalkLive;
    match call
    case AddCall(prompt, params, arrival) =>
      KvRunStep(cfg, e.kv, p.live, Pages.DoRegister(e.counter + 1, prompt));
    case CancelOf(id) => KvRunStep(cfg, e.kv, p.live, Pages.DoUnregister(id));
    case StepOf => StepKvRun(cfg, e, p.live);
  }

  lemma StepKvRun(cfg: Kv.Config, e: Engine, live: bool)
    requires EngineShape(cfg, e) && KvRun(cfg, e.kv, live)
    ensures KvRun(cfg, StepCall(cfg, e).engine.kv, live)
  {
    hide KvRun, RunOk, Kv.Shape, Absorb, DropAll, Do, Forward, BatcherOk;
    var (run, events) := Forward(e);
    var a := Absorb(cfg, e.(run := run), events);
    AbsorbKvRun(cfg, e.(run := run), live, events);
    if a.error.None? && FinalIds(a.outputs) != [] {
      var ids := FinalIds(a.outputs);
      RunOkParts(a.engine.run);
      DoOk(a.engine.run, FinishMany(ids));
      DropAllKvRun(cfg, a.engine.(run := Do(a.engine.run, FinishMany(ids))), live, ids);
    }
  }

  lemma {:induction false} EngineKvRun(cfg: Kv.Config, maxSeqs: nat, budget: nat, vocab: Vocab, eos: int,
                                       calls: seq<Call>, p: Promise, e: Engine)
    requires Reached(cfg, Begin(cfg, maxSeqs, budget, vocab, eos), calls, p, e)
    ensures KvRun(cfg, e.kv, p.live)
  {
    hide KvRun, Calls, Kept;
    var e0 := Begin(cfg, maxSeqs, budget, vocab, eos);
    if calls == [] {
      BeginKvRun(cfg, maxSeqs, budget, vocab, eos, p.live);
    } else {
      var u, call := calls[..|calls| - 1], calls[|calls| - 1];
      var e1, error :| Reached(cfg, e0, u, p, e1) && Calls(cfg, e1, call, error, e) && Kept(cfg, p, e1, call, error);
      EngineKvRun(cfg, maxSeqs, budget, vocab, eos, u, p, e1);
      CallKvRun(cfg, p, e1, call, error, e);
    }
  }

  lemma BeginKvRun(cfg: Kv.Config, maxSeqs: nat, budget: nat, vocab: Vocab, eos: int, live: bool)
    ensures KvRun(cfg, Begin(cfg, maxSeqs, budget, vocab, eos).kv, live)
  {
    assert Pages.NoForks([]) && Begin(cfg, maxSeqs, budget, vocab, eos).kv == Pages.Run(cfg, []);
  }

  /** While no step ran out of pages and every prompt added walked live nodes, evictions
      or not, the kernels see for each active request a context of exactly its prompt
      and its tokens. */
  lemma EngineContext(cfg: Kv.Config, maxSeqs: nat, budget: nat, vocab: Vocab, eos: int,
                      calls: seq<Call>, e: Engine, id: nat)
    requires Reached(cfg, Begin(cfg, maxSeqs, budget, vocab, eos), calls, Promise(true, true), e) && id in e.active
    requires cfg.caching ==> NonZeroHash(cfg) && InjectiveHash(cfg)
    ensures id in e.kv.cache.tables && id in e.run.r.batcher.requests
    ensures ContextIs(cfg, e, id)
  {
    hide Reached, EngineShape, Pages.Run, Pages.RunLive, Pages.RunUnshared;
    EngineRun(cfg, maxSeqs, budget, vocab, eos, calls, Promise(true, true), e);
    EngineKvRun(cfg, maxSeqs, budget, vocab, eos, calls, Promise(true, true), e);
    var ops: seq<Pages.Op> :| Pages.NoForks(ops) && Pages.RunLive(cfg, ops) && e.kv == Pages.Run(cfg, ops);
    RunContext(cfg, e, id, ops);
  }

  /** The context length the cache has for a request is its prompt and its tokens. */
  ghost predicate ContextIs(cfg: Kv.Config, e: Engine, id: nat) {
    && id in e.kv.cache.tables && id in e.run.r.batcher.requests
    && var r := e.run.r.batcher.requests[id];
       && Kv.Shape(cfg, e.kv.cache) && Kv.ContextLen(cfg, e.kv.cache, id) == |r.prompt| + |r.generated|
  }

  lemma RunContext(cfg: Kv.Config, e: Engine, id: nat, ops: seq<Pages.Op>)
    requires Coupled(cfg, e) && id in e.active
    requires cfg.caching ==> NonZeroHash(cfg) && InjectiveHash(cfg)
    requires Pages.NoForks(ops) && Pages.RunLive(cfg, ops) && e.kv == Pages.Run(cfg, ops)
    ensures ContextIs(cfg, e, id)
  {
    hide EngineShape, Pages.Run, Pages.RunLive, Pages.RunUnshared, NonZeroHash, InjectiveHash;
    PagedKvTheorems.NoForksUnshared(cfg, ops);
    assert id in e.kv.cache.tables.Keys;
    PagedKvTheorems.StagedLength(cfg, ops, id);
    assert Holds(e, id, e.kv.lens[id]);
  }

  /** In particular while nothing has been evicted, whatever the prompts. */
  lemma EvictionFreeContext(cfg: Kv.Config, maxSeqs: nat, budget: nat, vocab: Vocab, eos: int,
                            calls: seq<Call>, e: Engine, id: nat)
    requires Reached(cfg, Begin(cfg, maxSeqs, budget, vocab, eos), calls, Promise(true, false), e) && id in e.active
    requires cfg.caching ==> NonZeroHash(cfg) && InjectiveHash(cfg) && e.kv.cache.evictions == 0
    ensures ContextIs(cfg, e, id)
  {
    hide Reached, EngineShape, Pages.Run, Pages.RunLive, NonZeroHash, InjectiveHash, ContextIs;
    EngineRun(cfg, maxSeqs, budget, vocab, eos, calls, Promise(true, false), e);
    EngineKvRun(cfg, maxSeqs, budget, vocab, eos, calls, Promise(true, false), e);
    var ops: seq<Pages.Op> :| Pages.NoForks(ops) && e.kv == Pages.Run(cfg, ops);
    if cfg.caching {
      Pages.EvictionFreeRun(cfg, ops);
    } else {
      Pages.UncachedRun(cfg, ops);
    }
    RunContext(cfg, e, id, ops);
  }

  // ----- The drain of a closed engine -----

  /** n steps, none of which raises. */
  ghost predicate QuietSteps(cfg: Kv.Config, e: Engine, n: nat, e': Engine)
    decreases n
  {
    if n == 0 then e' == e
    else
      && EngineShape(cfg, e)
      && StepCall(cfg, e).Done?
      && QuietSteps(cfg, StepCall(cfg, e).engine, n - 1, e')
  }

  /** No request is active, no page table is left, and every request is finished. */
  ghost predicate Drained(e: Engine) {
    && e.active == map[] && e.kv.cache.tables == map[]
    && forall id :: id in e.run.r.batcher.requests ==> e.run.r.batcher.requests[id].state == Finished
  }

  lemma FinishShrinks(b: Batcher, ids: seq<nat>)
    requires BatcherOk(b)
    ensures BatcherOk(Finish(b, ids)) && Measure(Finish(b, ids)) <= Measure(b)
    ensures Drainable(b) ==> Drainable(Finish(b, ids))
    ensures LiveIds(Finish(b, ids)) == LiveIds(b)
  {
    FinishEffect(b, ids);
    FinishOk(b, ids);
    var b' := Finish(b, ids);
    hide Finish;
    var m, m' := Weights(b), Weights(b');
    assert forall id :: id in b.requests ==> Left(b'.requests[id]) <= Left(b.requests[id]);
    assert m'.Keys <= m.Keys && forall k :: k in m' ==> m'[k] <= m[k];
    TotalMonotone(m, m');
  }

  lemma CleanUpBatcher(cfg: Kv.Config, e: Engine, finished: seq<nat>)
    requires EngineShape(cfg, e)
    ensures BatcherOk(e.run.r.batcher)
    ensures CleanUp(cfg, e, finished).run.r.batcher == Finish(e.run.r.batcher, finished)
  {
    hide Kv.Shape, Ok, Finish;
    RunOkParts(e.run);
    if finished == [] {
      FinishNothing(e.run.r.batcher, []);
    } else {
      DoOk(e.run, FinishMany(finished));
    }
  }

  /** The batcher after a step of the engine is the runner's, with some more
      requests finished. */
  lemma StepBatcher(cfg: Kv.Config, e: Engine) returns (finals: seq<nat>)
    requires Covered(cfg, e) && StepCall(cfg, e).Done?
    ensures BatcherOk(e.run.r.batcher)
    ensures var b1 := Step(e.run.r, []).batcher;
      BatcherOk(b1) && StepCall(cfg, e).engine.run.r.batcher == Finish(b1, finals)
  {
    hide Kv.Shape, Ok, Finish, Absorb, CleanUp, Tracked, BatcherOk, Step, Forwarded;
    RunOkParts(e.run);
    TrackedParts(e);
    StepRunOk(e.run, []);
    RunOkParts(After(e.run, Step(e.run.r, [])));
    ForwardOk(e);
    var (run, events) := Forward(e);
    EventsActive(e, run.r.batcher.requests, events);
    AbsorbOk(cfg, e.(run := run), events);
    var a := Absorb(cfg, e.(run := run), events);
    finals := FinalIds(a.outputs);
    CleanUpBatcher(cfg, a.engine, finals);
  }

  lemma StepDrains(cfg: Kv.Config, e: Engine)
    requires Covered(cfg, e) && StepCall(cfg, e).Done?
    ensures BatcherOk(e.run.r.batcher)
    ensures var b, b' := e.run.r.batcher, StepCall(cfg, e).engine.run.r.batcher;
      && BatcherOk(b')
      && (Drainable(b) ==> Drainable(b') && (Measure(b') < Measure(b) || Measure(b') == Measure(b) == 0))
  {
    hide Kv.Shape, Ok, Finish, Tracked, Step, StepCall, Measure, Drainable, Shrinks, BatcherOk;
    RunOkParts(e.run);
    var finals := StepBatcher(cfg, e);
    var b, b1 := e.run.r.batcher, Step(e.run.r, []).batcher;
    OkShapes(b);
    OkShapes(b1);
    if Drainable(b) {
      StaysDrainable(e.run, []);
      EmptyMeasure(b);
      EmptyMeasure(b1);
      if b.waiting != [] || b.running != [] {
        StepShrinks(e.run, []);
        ShrinksMeasure(b, b1);
      }
    }
    FinishShrinks(b1, finals);
    OkShapes(Finish(b1, finals));
  }

  lemma OkShapes(b: Batcher)
    requires BatcherOk(b)
    ensures BatcherShape(b)
  {
  }

  /** With no new requests, prompts that fit the budget and pages that suffice, the
      engine is empty after at most as many steps as the measure says: no request is
      active and no page table is left. */
  lemma {:induction false} EngineDrains(cfg: Kv.Config, e: Engine, n: nat, e': Engine)
    requires Coupled(cfg, e) && BatcherOk(e.run.r.batcher) && Drainable(e.run.r.batcher)
    requires QuietSteps(cfg, e, n, e') && n >= Measure(e.run.r.batcher)
    ensures Coupled(cfg, e') && Drained(e')
    decreases n
  {
    hide Covered, Exact, StepCall, EngineShape, Drainable, Measure, BatcherOk, BatcherShape, QuietSteps, Drained;
    OkShapes(e.run.r.batcher);
    QuietNext(cfg, e, n, e');
    if n == 0 {
      Emptied(cfg, e);
    } else {
      StepCoupled(cfg, e);
      StepDrains(cfg, e);
      EngineDrains(cfg, StepCall(cfg, e).engine, n - 1, e');
    }
  }

  lemma QuietNext(cfg: Kv.Config, e: Engine, n: nat, e': Engine)
    requires QuietSteps(cfg, e, n, e')
    ensures n == 0 ==> e' == e
    ensures n > 0 ==>
      EngineShape(cfg, e) && StepCall(cfg, e).Done? && QuietSteps(cfg, StepCall(cfg, e).engine, n - 1, e')
  {
    hide StepCall, EngineShape;
  }

  lemma Emptied(cfg: Kv.Config, e: Engine)
    requires Coupled(cfg, e) && BatcherOk(e.run.r.batcher) && Measure(e.run.r.batcher) == 0
    ensures Drained(e)
  {
    EmptyMeasure(e.run.r.batcher);
    RunOkParts(e.run);
    forall id | id in e.run.r.batcher.requests ensures !Unfinished(e, id) {
      assert Placed(e.run, id);
    }
    assert e.active.Keys == {};
    NoKeys(e.active);
    NoKeys(e.kv.cache.tables);
  }

  lemma NoKeys<T>(m: map<nat, T>)
    ensures m.Keys == {} ==> m == map[]
  {
    assert forall k :: k in m ==> k in m.Keys;
  }

  /** Once no page table is left and nothing has leaked, no block is in use. */
  lemma NothingHeld(cfg: Kv.Config, ops: seq<Pages.Op>)
    requires Pages.RunWalks(cfg, ops) && !Pages.RunLeaks(cfg, ops) && Pages.Run(cfg, ops).cache.tables == map[]
    ensures var c := Pages.Run(cfg, ops).cache;
      && |c.free| + |c.lru| == cfg.totalBlocks
      && forall b :: 0 <= b < |c.blocks| ==> c.blocks[b].refCount == 0
  {
    var c := Pages.Run(cfg, ops).cache;
    Pages.RunSound(cfg, ops);
    Pages.RunLeakIff(cfg, ops);
    EmptyTables(cfg, c);
    PagedKvTheorems.AllocatedBlocks(cfg, c, multiset{});
  }

  lemma EmptyTables(cfg: Kv.Config, c: Kv.Cache)
    requires PagedKvSound.Sound(cfg, c, multiset{}) && c.tables == map[]
    ensures forall b :: 0 <= b < |c.blocks| ==> c.blocks[b].refCount == 0
    ensures PagedKvTheorems.InUse(c) == {}
  {
    forall b | 0 <= b < |c.blocks| ensures c.blocks[b].refCount == 0 {
      TotalZero(PagedKvSound.Counts(c.tables, b));
    }
  }
}
