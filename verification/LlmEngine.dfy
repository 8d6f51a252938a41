/** The engine itself: a class over the runner, the batcher and the KV cache whose
    three calls take the abstract state where Engine's functions do. */
module LlmEngine {
  import opened Wrappers
  import opened Batching
  import opened Running
  import opened RunningProofs
  import opened RunningRuns
  import opened BatchScheduler
  import opened TokenLoop
  import opened PagedKvManager
  import opened Engine
  import Calls = Engine
  import EngineProofs
  import EngineRuns
  import Kv = PagedKv
  import Pages = PagedKvRuns

  /** What a call hands back, as a value: its result or its exception, and the state. */
  function AsCalled<T>(error: Option<Kv.KvError>, value: T, e: Engine): Called<T> {
    if error.None? then Done(value, e) else Raised(error.value, e)
  }

  /** The cache after a step of its world is the one its operation returns. */
  lemma KvStep(cfg: Kv.Config, w: Pages.World, op: Pages.Op)
    requires Kv.Shape(cfg, w.cache)
    ensures Pages.Step(cfg, w, op).cache ==
      match op
      case DoRegister(id, prompt) => Kv.Register(cfg, w.cache, id, prompt).cache
      case DoAppend(id, n) => Kv.Append(cfg, w.cache, id, n).cache
      case DoUnregister(id) => Kv.Unregister(cfg, w.cache, id)
      case DoFork(parent, child) => Kv.Fork(cfg, w.cache, parent, child).cache
  {
    hide Kv.Shape, Kv.Append, Kv.Unregister, Kv.Fork, Kv.Prepared;
  }

  class LLMEngine {
    var counter: nat
    var active: map<nat, Params>
    const kvCache: PagedKVCache
    const batcher: ContinuousBatcher
    const modelRunner: ModelRunner
    ghost var pages: Pages.World
    ghost var hist: seq<Event>
    ghost var stopped: set<nat>

    ghost function View(): Engine
      reads this, modelRunner, modelRunner.batcher, modelRunner.streamBuffer
    {
      Engine(counter, active, pages, World(modelRunner.View(), hist, stopped))
    }

    /** What holds in the middle of a call, too. */
    ghost predicate Consistent()
      reads this, kvCache, modelRunner, modelRunner.batcher, modelRunner.streamBuffer
    {
      && modelRunner.batcher == batcher
      && kvCache.Valid() && pages.cache == kvCache.View()
      && EngineShape(kvCache.config, View())
    }

    /** Between calls no unfinished request lacks its page table, and the next id is new. */
    ghost predicate Valid()
      reads this, kvCache, modelRunner, modelRunner.batcher, modelRunner.streamBuffer
    {
      Consistent() && EngineProofs.Tracked(View())
    }

    constructor (config: Kv.Config, maxSeqs: nat, budget: nat, vocab: Vocab, eos: int)
      ensures Valid() && kvCache.config == config && View() == Begin(config, maxSeqs, budget, vocab, eos)
    {
      counter, active := 0, map[];
      kvCache := new PagedKVCache(config);
      var b := new ContinuousBatcher(maxSeqs, budget);
      batcher := b;
      modelRunner := new ModelRunner(b, vocab, eos);
      pages := Pages.World(Kv.Init(config), multiset{}, map[], map[], {});
      hist, stopped := [], {};
      new;
      StartOk(maxSeqs, budget, vocab, eos);
    }

    method AddRequest(prompt: seq<int>, params: Params, arrival: nat) returns (error: Option<Kv.KvError>, id: nat)
      requires Valid() && params.maxTokens >= -0x8000_0000
      modifies this, kvCache, batcher
      ensures Valid() && Unused(old(View()).run, old(counter) + 1)
      ensures AsCalled(error, id, View()) == Calls.AddRequest(kvCache.config, old(View()), prompt, params, arrival)
    {
      hide Kv.Shape, RunOk, Kv.Register, Pages.Step, EngineProofs.Tracked, EngineProofs.Exact, EngineProofs.Added;
      EngineProofs.AddKeeps(kvCache.config, View(), prompt, params, arrival);
      counter := counter + 1;
      id := counter;
      KvStep(kvCache.config, pages, Pages.DoRegister(id, prompt));
      var matched: nat;
      error, matched := kvCache.RegisterSequenceWithPrefix(id, prompt);
      pages := Pages.Step(kvCache.config, pages, Pages.DoRegister(id, prompt));
      if error.Some? {
        return;
      }
      DoOk(View().run, Submit(id, prompt, params.maxTokens, params.priority, arrival));
      var ok := batcher.AddRequest(id, Request(prompt, [], params.maxTokens, params.priority, arrival, Waiting));
      active := active[id := params];
    }

    /** Unregisters a sequence and forgets its request. */
    method DropRequest(id: nat)
      requires Consistent()
      modifies this, kvCache
      ensures Consistent() && View() == Drop1(kvCache.config, old(View()), id)
    {
      hide Kv.Shape, RunOk, Kv.Unregister, Pages.Step;
      KvStep(kvCache.config, pages, Pages.DoUnregister(id));
      kvCache.UnregisterSequence(id);
      pages := Pages.Step(kvCache.config, pages, Pages.DoUnregister(id));
      active := active - {id};
    }

    method CancelRequest(id: nat)
      requires Valid()
      modifies this, kvCache, modelRunner, batcher
      ensures Consistent() && View() == CancelCall(kvCache.config, old(View()), id)
      ensures id <= counter ==> Valid()
    {
      EngineRuns.CancelCoupled(kvCache.config, View(), id);
      DoOk(View().run, CancelOne(id));
      EngineProofs.KnownIssued(View().run);
      hide Kv.Shape, Kv.Unregister;
      modelRunner.CancelRequest(id);
      DropRequest(id);
    }

    /** One event: a final one is recorded, any other takes a token in the cache. */
    method AbsorbEvent(out: Event, ghost outputs: seq<Event>) returns (error: Option<Kv.KvError>, result: Event)
      requires Consistent()
      modifies this, kvCache
      ensures Consistent() && active == old(active)
      ensures result == Output(active, out)
      ensures Absorbed(error, View(), if error.None? then outputs + [result] else outputs)
        == AbsorbOne(kvCache.config, Absorbed(None, old(View()), outputs), out)
    {
      hide Kv.Shape, RunOk, Kv.Append, Pages.Step;
      var isFinal := out.isFinal;
      if out.id in active && out.token in active[out.id].stops {
        isFinal := true;
      }
      result := Event(out.id, out.token, isFinal);
      error := None;
      if !isFinal {
        KvStep(kvCache.config, pages, Pages.DoAppend(out.id, 1));
        error := kvCache.AppendTokens(out.id, 1);
        pages := Pages.Step(kvCache.config, pages, Pages.DoAppend(out.id, 1));
      }
    }

    /** The loop over the events popped from the stream buffer. */
    method AbsorbAll(raw: seq<Event>)
      returns (error: Option<Kv.KvError>, results: seq<Event>, finished: seq<nat>)
      requires Consistent()
      modifies this, kvCache
      ensures Consistent() && finished == FinalIds(results)
      ensures Absorbed(error, View(), results) == Absorb(kvCache.config, old(View()), raw)
    {
      ghost var e0 := View();
      hide EngineShape, AbsorbOne, Absorb, FinalIds;
      AbsorbNone(kvCache.config, e0);
      assert raw[..0] == [];
      error, results, finished := None, [], [];
      var i := 0;
      while i < |raw|
        invariant 0 <= i <= |raw| && Consistent() && error.None? && finished == FinalIds(results)
        invariant Absorbed(None, View(), results) == Absorb(kvCache.config, e0, raw[..i])
      {
        AbsorbNext(kvCache.config, e0, raw, i);
        var result: Event;
        error, result := AbsorbEvent(raw[i], results);
        i := i + 1;
        if error.Some? {
          AbsorbStuck(kvCache.config, e0, raw, i);
          return;
        }
        FinalIdsPush(results, result);
        results := results + [result];
        if result.isFinal {
          finished := finished + [result.id];
        }
      }
      assert raw[..i] == raw;
    }

    /** Marks the finished requests, and forgets them one by one. */
    method CleanUpFinished(finished: seq<nat>)
      requires Consistent()
      modifies this, kvCache, batcher
      ensures Consistent() && View() == CleanUp(kvCache.config, old(View()), finished)
    {
      if finished == [] {
        return;
      }
      DoOk(View().run, FinishMany(finished));
      EngineProofs.KnownIssued(View().run);
      hide RunOk, Kv.Shape, DropAll, Finish;
      ghost var w := Do(View().run, FinishMany(finished));
      batcher.UpdateRequestsState(finished);
      stopped := stopped + set id | id in finished;
      ghost var e := View();
      assert e == old(View()).(run := w);
      ForgetNone(kvCache.config, e);
      var i := 0;
      assert finished[..0] == [];
      while i < |finished|
        invariant 0 <= i <= |finished| && Consistent()
        invariant View() == DropAll(kvCache.config, e, finished[..i])
      {
        ForgetNext(kvCache.config, e, finished, i);
        DropRequest(finished[i]);
        i := i + 1;
      }
      assert finished[..i] == finished;
    }

    method Step() returns (error: Option<Kv.KvError>, results: seq<Event>)
      requires Valid()
      modifies this, kvCache, batcher, modelRunner.streamBuffer
      ensures Valid() && AsCalled(error, results, View()) == StepCall(kvCache.config, old(View()))
    {
      hide EngineProofs.Tracked, EngineProofs.Exact, RunOk, Ok, BatcherOk, Kv.Shape, Running.Step, Absorb, CleanUp,
        FinalIds;
      ghost var e := View();
      EngineProofs.StepCoupled(kvCache.config, e);
      EngineProofs.RunOkParts(e.run);
      DoOk(e.run, StepOnce([]));
      EngineProofs.RunOkParts(Do(e.run, StepOnce([])));
      DoOk(Do(e.run, StepOnce([])), PopAll);
      var total := modelRunner.Step();
      hist := After(e.run, modelRunner.View()).hist;
      assert View().run == Do(e.run, StepOnce([]));
      var raw := modelRunner.streamBuffer.PopAll();
      assert (View().run, raw) == Forward(e);
      assert View() == e.(run := View().run);
      var finished: seq<nat>;
      error, results, finished := AbsorbAll(raw);
      if error.Some? {
        return;
      }
      CleanUpFinished(finished);
    }
  }

  lemma AbsorbNone(cfg: Kv.Config, e: Engine)
    requires EngineShape(cfg, e)
    ensures Absorb(cfg, e, []) == Absorbed(None, e, []) && FinalIds([]) == []
  {
  }

  lemma AbsorbNext(cfg: Kv.Config, e: Engine, events: seq<Event>, n: nat)
    requires EngineShape(cfg, e) && n < |events|
    ensures EngineShape(cfg, Absorb(cfg, e, events[..n]).engine)
    ensures Absorb(cfg, e, events[..n + 1]) == AbsorbOne(cfg, Absorb(cfg, e, events[..n]), events[n])
  {
    hide EngineShape, AbsorbOne;
    assert events[..n + 1][..n] == events[..n];
  }

  /** After an exception the rest of the events is never looked at. */
  lemma {:induction false} AbsorbStuck(cfg: Kv.Config, e: Engine, events: seq<Event>, n: nat)
    requires EngineShape(cfg, e) && n <= |events| && Absorb(cfg, e, events[..n]).error.Some?
    ensures Absorb(cfg, e, events) == Absorb(cfg, e, events[..n])
    decreases |events| - n
  {
    hide EngineShape, Absorb;
    if n == |events| {
      assert events[..n] == events;
    } else {
      AbsorbNext(cfg, e, events, n);
      AbsorbStuck(cfg, e, events, n + 1);
    }
  }

  lemma ForgetNone(cfg: Kv.Config, e: Engine)
    requires EngineShape(cfg, e)
    ensures DropAll(cfg, e, []) == e
  {
  }

  lemma ForgetNext(cfg: Kv.Config, e: Engine, ids: seq<nat>, n: nat)
    requires EngineShape(cfg, e) && n < |ids|
    ensures EngineShape(cfg, DropAll(cfg, e, ids[..n]))
    ensures DropAll(cfg, e, ids[..n + 1]) == Drop1(cfg, DropAll(cfg, e, ids[..n]), ids[n])
  {
    hide EngineShape, Drop1;
    assert ids[..n + 1][..n] == ids[..n];
  }
}
