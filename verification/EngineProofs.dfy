/** The coupling of scheduler and KV cache: over every run of engine calls the
    page tables, the active requests and the unfinished requests stay in step. */
module EngineProofs {
  import opened Wrappers
  import opened Batching
  import opened Running
  import opened RunningProofs
  import opened RunningRuns
  import opened Engine
  import Kv = PagedKv
  import Pages = PagedKvRuns
  import PagedKvSound
  import PagedKvOps
  import PagedKvSpare

  ghost predicate Unfinished(e: Engine, id: nat) {
    id in e.run.r.batcher.requests && e.run.r.batcher.requests[id].state != Finished
  }

  /** No unfinished request is without a page table. */
  ghost predicate Tracked(e: Engine) {
    && e.run.r.queue == []
    && e.kv.cache.tables.Keys == e.active.Keys == e.kv.lens.Keys
    && (forall id :: id in e.active || id in e.run.r.batcher.requests || id in e.run.r.cancelled ==> id <= e.counter)
    && (forall id :: Unfinished(e, id) ==> id in e.active)
  }

  /** The three sets are equal, and each sequence holds its prompt and what was
      generated for it. */
  ghost predicate Exact(e: Engine) {
    && (forall id :: id in e.active ==> Unfinished(e, id))
    && Sized(e)
  }

  /** Each sequence holds its prompt and what was generated for it. */
  ghost predicate Sized(e: Engine) {
    forall id :: id in e.active ==> id in e.kv.lens && Holds(e, id, e.kv.lens[id])
  }

  ghost predicate Holds(e: Engine, id: nat, n: nat) {
    && id in e.run.r.batcher.requests
    && var r := e.run.r.batcher.requests[id]; n == |r.prompt| + |r.generated|
  }

  /** What every call keeps, whatever it raises. */
  ghost predicate Covered(cfg: Kv.Config, e: Engine) {
    EngineShape(cfg, e) && Tracked(e)
  }

  ghost predicate Coupled(cfg: Kv.Config, e: Engine) {
    Covered(cfg, e) && Exact(e)
  }

  lemma BeginCoupled(cfg: Kv.Config, maxSeqs: nat, budget: nat, vocab: Vocab, eos: int)
    ensures Coupled(cfg, Begin(cfg, maxSeqs, budget, vocab, eos))
  {
    StartOk(maxSeqs, budget, vocab, eos);
  }

  // ----- The KV calls, seen from the engine -----

  lemma {:induction false} ExtendErrors(cfg: Kv.Config, c: Kv.Cache, id: nat, remaining: nat)
    requires Kv.Shape(cfg, c) && id in c.tables
    ensures var r := Kv.Extend(cfg, c, id, remaining);
      r.cache.tables.Keys == c.tables.Keys && (r.Throw? ==> r.error == Kv.OutOfPages)
    decreases remaining
  {
    hide Kv.Shape, Kv.Grow;
    if remaining > 0 {
      var added := if remaining < cfg.blockSize then remaining else cfg.blockSize;
      var g := Kv.Grow(cfg, c, id, added);
      GrowErrors(cfg, c, id, added);
      if g.Return? {
        ExtendErrors(cfg, g.cache, id, remaining - added);
      }
    }
  }

  lemma GrowErrors(cfg: Kv.Config, c: Kv.Cache, id: nat, added: nat)
    requires Kv.Shape(cfg, c) && id in c.tables && added <= cfg.blockSize
    ensures var r := Kv.Grow(cfg, c, id, added);
      r.cache.tables.Keys == c.tables.Keys && (r.Throw? ==> r.error == Kv.OutOfPages)
  {
  }

  /** An append to a registered sequence can only run out of pages. */
  lemma AppendErrors(cfg: Kv.Config, c: Kv.Cache, id: nat, n: nat)
    requires Kv.Shape(cfg, c) && id in c.tables
    ensures var r := Kv.Append(cfg, c, id, n);
      r.cache.tables.Keys == c.tables.Keys && (r.Throw? ==> r.error == Kv.OutOfPages)
  {
    hide Kv.Shape;
    var k := if n <= Kv.Room(cfg, c, id) then n else Kv.Room(cfg, c, id);
    ExtendErrors(cfg, Kv.FillLast(cfg, c, id, k), id, n - k);
  }

  lemma AppendStep(cfg: Kv.Config, w: Pages.World, id: nat, n: nat)
    requires Kv.Shape(cfg, w.cache) && id in w.cache.tables && id in w.lens
    ensures var r := Kv.Append(cfg, w.cache, id, n); var w' := Pages.Step(cfg, w, Pages.DoAppend(id, n));
      && w'.cache == r.cache && w'.cache.tables.Keys == w.cache.tables.Keys
      && w'.lens.Keys == w.lens.Keys && (forall k :: k in w.lens && k != id ==> w'.lens[k] == w.lens[k])
      && (r.Return? ==> w'.lens[id] == w.lens[id] + n)
      && (r.Throw? ==> r.error == Kv.OutOfPages)
  {
    hide Kv.Shape, Kv.Append;
    AppendErrors(cfg, w.cache, id, n);
  }

  lemma UnregisterStep(cfg: Kv.Config, w: Pages.World, id: nat)
    requires Kv.Shape(cfg, w.cache)
    ensures var w' := Pages.Step(cfg, w, Pages.DoUnregister(id));
      && w'.cache.tables.Keys == w.cache.tables.Keys - {id} && w'.lens == w.lens - {id}
  {
    if id in w.cache.tables {
      var c1 := Kv.ReleaseAll(cfg, w.cache, w.cache.tables[id]);
    }
  }

  lemma RegisterStep(cfg: Kv.Config, w: Pages.World, id: nat, prompt: seq<int>)
    requires Kv.Shape(cfg, w.cache) && id !in w.cache.tables
    ensures var r := Kv.Register(cfg, w.cache, id, prompt); var w' := Pages.Step(cfg, w, Pages.DoRegister(id, prompt));
      && (r.Return? ==> w'.cache.tables.Keys == w.cache.tables.Keys + {id} && w'.lens == w.lens[id := |prompt|])
      && (r.Throw? ==> w'.cache.tables.Keys == w.cache.tables.Keys && w'.lens == w.lens && r.error == Kv.OutOfPages)
  {
    var g := Kv.Prepared(cfg, w.cache, prompt);
    hide Kv.Prepared, Kv.Shape;
  }

  // ----- add_request -----

  /** The fields after add_request. */
  ghost predicate Added(e: Engine, c: Called<nat>, prompt: seq<int>, p: Params, arrival: nat) {
    var id, e' := e.counter + 1, c.engine;
    && e'.counter == id && e'.run.r.queue == e.run.r.queue && e'.run.r.cancelled == e.run.r.cancelled
    && if c.Raised? then
         && c.error == Kv.OutOfPages && e'.active == e.active && e'.run == e.run
         && e'.kv.cache.tables.Keys == e.kv.cache.tables.Keys && e'.kv.lens == e.kv.lens
       else
         && c.value == id && e'.active == e.active[id := p]
         && e'.kv.cache.tables.Keys == e.kv.cache.tables.Keys + {id} && e'.kv.lens == e.kv.lens[id := |prompt|]
         && e'.run.r.batcher.requests ==
              if prompt == [] then e.run.r.batcher.requests
              else e.run.r.batcher.requests[id := Request(prompt, [], p.maxTokens, p.priority, arrival, Waiting)]
  }

  lemma SubmitStep(w: World, id: nat, prompt: seq<int>, p: Params, arrival: nat)
    requires RunOk(w) && Unused(w, id) && p.maxTokens >= -0x8000_0000
    ensures var op := Submit(id, prompt, p.maxTokens, p.priority, arrival);
      && Allowed(w, op) && BatcherOk(w.r.batcher)
      && Do(w, op).r.queue == w.r.queue && Do(w, op).r.cancelled == w.r.cancelled
      && Do(w, op).r.batcher.requests ==
           if prompt == [] then w.r.batcher.requests
           else w.r.batcher.requests[id := Request(prompt, [], p.maxTokens, p.priority, arrival, Waiting)]
  {
    KnownIssued(w);
  }

  lemma AddEffect(cfg: Kv.Config, e: Engine, prompt: seq<int>, p: Params, arrival: nat)
    requires EngineShape(cfg, e) && Unused(e.run, e.counter + 1) && p.maxTokens >= -0x8000_0000
    requires e.counter + 1 !in e.kv.cache.tables
    ensures Added(e, AddRequest(cfg, e, prompt, p, arrival), prompt, p, arrival)
  {
    hide Kv.Shape, RunOk, Pages.Step, Kv.Register, Do, Allowed, BatcherOk;
    SubmitStep(e.run, e.counter + 1, prompt, p, arrival);
    RegisterStep(cfg, e.kv, e.counter + 1, prompt);
  }

  lemma AddFresh(cfg: Kv.Config, e: Engine)
    requires Covered(cfg, e)
    ensures var id := e.counter + 1;
      EngineShape(cfg, e) && Tracked(e)
      && Unused(e.run, id) && id !in e.kv.cache.tables && id !in e.active
  {
    var id := e.counter + 1;
    hide EngineShape;
    assert id in e.active || id in e.run.r.batcher.requests || id in e.run.r.cancelled ==> id <= e.counter;
    assert id in e.kv.cache.tables <==> id in e.kv.cache.tables.Keys;
  }

  lemma AddedTracked(e: Engine, c: Called<nat>, prompt: seq<int>, p: Params, arrival: nat)
    requires Tracked(e) && Added(e, c, prompt, p, arrival)
    ensures Tracked(c.engine)
    ensures Exact(e) ==> (Exact(c.engine) <==> c.Raised? || prompt != [])
  {
    var id := e.counter + 1;
    assert id !in e.active && id !in e.run.r.batcher.requests;
    if c.Done? && prompt == [] {
      assert id in c.engine.active && !Unfinished(c.engine, id);
    }
  }

  lemma AddKeeps(cfg: Kv.Config, e: Engine, prompt: seq<int>, p: Params, arrival: nat)
    requires Covered(cfg, e) && p.maxTokens >= -0x8000_0000
    ensures Unused(e.run, e.counter + 1) && EngineShape(cfg, e)
    ensures var c := AddRequest(cfg, e, prompt, p, arrival);
      && Covered(cfg, c.engine)
      && (Coupled(cfg, e) ==> (Coupled(cfg, c.engine) <==> c.Raised? || prompt != []))
      && Added(e, c, prompt, p, arrival)
  {
    hide EngineShape, AddRequest, Tracked, Exact, Added;
    AddFresh(cfg, e);
    AddEffect(cfg, e, prompt, p, arrival);
    AddedTracked(e, AddRequest(cfg, e, prompt, p, arrival), prompt, p, arrival);
  }

  lemma AddRaises(cfg: Kv.Config, e: Engine, prompt: seq<int>, p: Params, arrival: nat)
    requires Covered(cfg, e) && p.maxTokens >= -0x8000_0000
    requires PagedKvSound.Sound(cfg, e.kv.cache, e.kv.leaked) && PagedKvOps.Walkable(cfg, e.kv.cache, prompt)
    ensures Unused(e.run, e.counter + 1) && EngineShape(cfg, e)
    ensures AddRequest(cfg, e, prompt, p, arrival).Raised? <==> PagedKvSpare.RunsOut(cfg, e.kv.cache, prompt)
  {
    hide EngineShape, Tracked, PagedKvSound.Sound, PagedKvOps.Walkable, PagedKvSpare.RunsOut, Kv.Register,
      Pages.Step, Do;
    AddFresh(cfg, e);
    PagedKvSpare.ShapeOf(cfg, e.kv.cache, e.kv.leaked);
    PagedKvSpare.RegisterThrowsIff(cfg, e.kv.cache, e.kv.leaked, e.counter + 1, prompt);
  }

  /** add_request keeps the three sets equal exactly when the prompt is not empty, or
      the pages run out: the batcher refuses an empty prompt after it was registered. */
  lemma AddCoupledIff(cfg: Kv.Config, e: Engine, prompt: seq<int>, p: Params, arrival: nat)
    requires Coupled(cfg, e) && p.maxTokens >= -0x8000_0000 && PagedKvSound.Sound(cfg, e.kv.cache, e.kv.leaked)
    ensures Unused(e.run, e.counter + 1) && EngineShape(cfg, e)
    ensures Coupled(cfg, AddRequest(cfg, e, prompt, p, arrival).engine)
      <==> prompt != [] || PagedKvSpare.RunsOut(cfg, e.kv.cache, prompt)
  {
    hide EngineShape, Tracked, Exact, PagedKvSound.Sound, PagedKvOps.Walkable, PagedKvSpare.RunsOut, AddRequest, Added;
    AddKeeps(cfg, e, prompt, p, arrival);
    if prompt == [] {
      PagedKvSpare.ShapeOf(cfg, e.kv.cache, e.kv.leaked);
      EmptyWalks(cfg, e.kv.cache);
      AddRaises(cfg, e, prompt, p, arrival);
    }
  }

  /** The lookup of an empty prompt hits nothing. */
  lemma EmptyWalks(cfg: Kv.Config, c: Kv.Cache)
    requires Kv.Shape(cfg, c)
    ensures PagedKvOps.Walkable(cfg, c, [])
  {
  }

  lemma KnownIssued(w: World)
    requires RunOk(w)
    ensures w.r.batcher.known <= w.r.batcher.requests.Keys
  {
  }

  // ----- step -----

  /** How many of the events are not final. */
  function Plain(active: map<nat, Params>, events: seq<Event>): nat {
    if events == [] then 0
    else Plain(active, events[..|events| - 1]) + if IsFinal(active, events[|events| - 1]) then 0 else 1
  }

  ghost predicate Keyed(active: map<nat, Params>, w: Pages.World) {
    w.cache.tables.Keys == active.Keys == w.lens.Keys
  }

  /** One more token for every event that is not final. */
  ghost predicate Lengthened(active: map<nat, Params>, lens: map<nat, nat>, events: seq<Event>, lens': map<nat, nat>) {
    && lens'.Keys == lens.Keys
    && forall id :: id in lens ==> lens'[id] == lens[id] + Plain(active, EventsOf(events, id))
  }

  function Outputs(active: map<nat, Params>, events: seq<Event>): seq<Event> {
    if events == [] then [] else Outputs(active, events[..|events| - 1]) + [Output(active, events[|events| - 1])]
  }

  /** The loop over the events touches only the KV cache. */
  ghost predicate AbsorbedOk(e: Engine, events: seq<Event>, a: Absorbed) {
    && a.engine == e.(kv := a.engine.kv)
    && Keyed(e.active, a.engine.kv)
    && (a.error.Some? ==> a.error.value == Kv.OutOfPages)
    && (a.error.None? ==>
          a.outputs == Outputs(e.active, events) && Lengthened(e.active, e.kv.lens, events, a.engine.kv.lens))
  }

  lemma PlainPush(active: map<nat, Params>, events: seq<Event>, ev: Event, id: nat)
    ensures Plain(active, EventsOf(events + [ev], id))
      == Plain(active, EventsOf(events, id)) + if id == ev.id && !IsFinal(active, ev) then 1 else 0
  {
    assert (events + [ev])[..|events|] == events;
    if id == ev.id {
      assert EventsOf(events + [ev], id)[..|EventsOf(events, id)|] == EventsOf(events, id);
    } else {
      assert EventsOf(events + [ev], id) == EventsOf(events, id);
    }
  }

  lemma LengthenedPush(active: map<nat, Params>, lens: map<nat, nat>, events: seq<Event>,
                       lens1: map<nat, nat>, ev: Event, lens2: map<nat, nat>)
    requires Lengthened(active, lens, events, lens1) && lens2.Keys == lens1.Keys && ev.id in lens
    requires forall k :: k in lens1 && k != ev.id ==> lens2[k] == lens1[k]
    requires lens2[ev.id] == lens1[ev.id] + if IsFinal(active, ev) then 0 else 1
    ensures Lengthened(active, lens, events + [ev], lens2)
  {
    hide IsFinal, EventsOf, Plain;
    forall id | id in lens ensures lens2[id] == lens[id] + Plain(active, EventsOf(events + [ev], id)) {
      PlainPush(active, events, ev, id);
    }
  }

  lemma AbsorbOneOk(cfg: Kv.Config, e: Engine, events: seq<Event>, a: Absorbed, ev: Event)
    requires EngineShape(cfg, a.engine) && Keyed(e.active, e.kv) && AbsorbedOk(e, events, a) && ev.id in e.active
    ensures AbsorbedOk(e, events + [ev], AbsorbOne(cfg, a, ev))
  {
    hide Kv.Shape, RunOk, Pages.Step, Kv.Append, IsFinal, Lengthened;
    assert (events + [ev])[..|events|] == events;
    if a.error.None? {
      var w := a.engine.kv;
      assert ev.id in w.cache.tables.Keys && ev.id in w.lens.Keys;
      AppendStep(cfg, w, ev.id, 1);
      var a' := AbsorbOne(cfg, a, ev);
      if a'.error.None? {
        LengthenedPush(e.active, e.kv.lens, events, w.lens, ev, a'.engine.kv.lens);
      }
    }
  }

  lemma AbsorbStart(e: Engine)
    requires Keyed(e.active, e.kv)
    ensures AbsorbedOk(e, [], Absorbed(None, e, []))
  {
  }

  lemma {:induction false} AbsorbOk(cfg: Kv.Config, e: Engine, events: seq<Event>)
    requires EngineShape(cfg, e) && Keyed(e.active, e.kv)
    requires forall i :: 0 <= i < |events| ==> events[i].id in e.active
    ensures AbsorbedOk(e, events, Absorb(cfg, e, events))
  {
    hide EngineShape, AbsorbOne, AbsorbedOk;
    if events == [] {
      AbsorbStart(e);
    } else {
      var u, ev := events[..|events| - 1], events[|events| - 1];
      AbsorbOk(cfg, e, u);
      assert u + [ev] == events;
      AbsorbOneOk(cfg, e, u, Absorb(cfg, e, u), ev);
    }
  }

  /** What the runner's step did to one request. */
  ghost predicate Advanced(r: Request, r': Request, mine: seq<Event>) {
    && r'.prompt == r.prompt && r'.maxNewTokens == r.maxNewTokens
    && (|| (mine == [] && r'.generated == r.generated && (r'.state == Finished <==> r.state == Finished))
        || (|mine| == 1 && r.state != Finished && r'.generated == r.generated + [mine[0].token]
            && (r'.state == Finished <==> mine[0].isFinal)))
  }

  ghost predicate Forwarded(requests: Store, requests': Store, events: seq<Event>) {
    && requests'.Keys == requests.Keys
    && (forall i :: 0 <= i < |events| ==> events[i].id in requests)
    && forall id :: id in requests ==> Advanced(requests[id], requests'[id], EventsOf(events, id))
  }

  lemma ForwardOk(e: Engine)
    requires RunOk(e.run) && e.run.r.queue == []
    ensures var (run, events) := Forward(e);
      && run.r.queue == [] && run.r.cancelled == e.run.r.cancelled
      && Forwarded(e.run.r.batcher.requests, run.r.batcher.requests, events)
  {
    hide Ok, BatcherOk, EventsOf, Step;
    RunOkParts(e.run);
    var b := e.run.r.batcher;
    var (run, events) := Forward(e);
    var all := StepKeys(e.run);
    assert events == [] + all == all;
    forall id | id in b.requests ensures Advanced(b.requests[id], run.r.batcher.requests[id], EventsOf(events, id)) {
      var ev := StepRequest(e.run, id);
      assert events == [] + ev == ev;
    }
  }

  lemma RunOkParts(w: World)
    requires RunOk(w)
    ensures Ok(w) && BatcherOk(w.r.batcher)
  {
  }

  /** The ids cleaned up are those with a final output. */
  lemma {:induction false} FinalIdsOf(active: map<nat, Params>, events: seq<Event>, id: nat)
    ensures Plain(active, EventsOf(events, id)) <= |EventsOf(events, id)|
    ensures id in FinalIds(Outputs(active, events))
      <==> Plain(active, EventsOf(events, id)) < |EventsOf(events, id)|
  {
    hide IsFinal;
    if events != [] {
      var u, ev := events[..|events| - 1], events[|events| - 1];
      FinalIdsOf(active, u, id);
      assert u + [ev] == events;
      PlainPush(active, u, ev, id);
      var o := Outputs(active, events);
      assert o[..|o| - 1] == Outputs(active, u);
    }
  }

  lemma {:induction false} FinishMarks(b: Batcher, ids: seq<nat>, id: nat)
    requires b.known <= b.requests.Keys && id in ids && id in b.known
    ensures Finish(b, ids).requests[id].state == Finished
  {
    if id in ids[..|ids| - 1] {
      FinishMarks(b, ids[..|ids| - 1], id);
    }
  }

  /** The finished requests are marked, unregistered and forgotten; nothing else. */
  ghost predicate Cleaned(e: Engine, e': Engine, finished: seq<nat>) {
    && e'.counter == e.counter && e'.run.r.queue == e.run.r.queue && e'.run.r.cancelled == e.run.r.cancelled
    && (Keyed(e.active, e.kv) ==> Keyed(e'.active, e'.kv))
    && e'.run.r.batcher.requests.Keys == e.run.r.batcher.requests.Keys
    && (forall id :: id in e.run.r.batcher.requests ==>
          var r, r' := e.run.r.batcher.requests[id], e'.run.r.batcher.requests[id];
          (id !in finished ==> r' == r) && (id in finished ==> r' == r.(state := Finished)))
    && Kept(e, e', finished)
  }

  ghost predicate Kept(e: Engine, e': Engine, finished: seq<nat>) {
    && (forall id :: id in e'.active <==> id in e.active && id !in finished)
    && (forall id :: id in e'.active ==> e'.active[id] == e.active[id])
    && (forall id :: id in e'.kv.lens <==> id in e.kv.lens && id !in finished)
    && (forall id :: id in e'.kv.lens ==> e'.kv.lens[id] == e.kv.lens[id])
  }

  lemma {:induction false} DropAllKept(cfg: Kv.Config, e: Engine, ids: seq<nat>)
    requires EngineShape(cfg, e)
    ensures var e' := DropAll(cfg, e, ids);
      && e'.counter == e.counter && Kept(e, e', ids) && (Keyed(e.active, e.kv) ==> Keyed(e'.active, e'.kv))
  {
    hide RunOk, Kv.Shape, Pages.Step, Kept, Keyed;
    if ids == [] {
      KeptAll(e);
    } else {
      var e1, e' := DropAll(cfg, e, ids[..|ids| - 1]), DropAll(cfg, e, ids);
      DropAllKept(cfg, e, ids[..|ids| - 1]);
      UnregisterStep(cfg, e1.kv, ids[|ids| - 1]);
      KeptPush(e, e1, e', ids);
    }
  }

  lemma KeptAll(e: Engine)
    ensures Kept(e, e, [])
  {
  }

  lemma KeptPush(e: Engine, e1: Engine, e': Engine, ids: seq<nat>)
    requires ids != [] && Kept(e, e1, ids[..|ids| - 1])
    requires e'.active == e1.active - {ids[|ids| - 1]} && e'.kv.lens == e1.kv.lens - {ids[|ids| - 1]}
    requires e'.kv.cache.tables.Keys == e1.kv.cache.tables.Keys - {ids[|ids| - 1]}
    ensures Kept(e, e', ids) && (Keyed(e1.active, e1.kv) ==> Keyed(e'.active, e'.kv))
  {
    assert ids == ids[..|ids| - 1] + [ids[|ids| - 1]];
  }

  lemma FinishAll(w: World, ids: seq<nat>)
    requires RunOk(w) && forall i :: 0 <= i < |ids| ==> ids[i] in w.r.batcher.requests
    ensures BatcherOk(w.r.batcher)
    ensures var w' := Do(w, FinishMany(ids)); var s, s' := w.r.batcher.requests, w'.r.batcher.requests;
      && w'.r.queue == w.r.queue && w'.r.cancelled == w.r.cancelled && s'.Keys == s.Keys
      && forall id :: id in s ==>
           (id !in ids ==> s'[id] == s[id]) && (id in ids ==> s'[id] == s[id].(state := Finished))
  {
    KnownIssued(w);
    FinishEffect(w.r.batcher, ids);
    forall id | id in w.r.batcher.requests && id in ids
      ensures Finish(w.r.batcher, ids).requests[id] == w.r.batcher.requests[id].(state := Finished)
    {
      if w.r.batcher.requests[id].state != Finished {
        UnfinishedKnown(w, id);
        FinishMarks(w.r.batcher, ids, id);
      }
    }
  }

  lemma UnfinishedKnown(w: World, id: nat)
    requires RunOk(w) && id in w.r.batcher.requests && w.r.batcher.requests[id].state != Finished
    ensures id in w.r.batcher.known
  {
    assert Story(w, id);
  }

  lemma CleanUpOk(cfg: Kv.Config, e: Engine, finished: seq<nat>)
    requires EngineShape(cfg, e) && forall i :: 0 <= i < |finished| ==> finished[i] in e.run.r.batcher.requests
    ensures Cleaned(e, CleanUp(cfg, e, finished), finished)
  {
    hide RunOk, Kv.Shape, Do, BatcherOk, Keyed, Kept, Pages.Step;
    if finished == [] {
      KeptAll(e);
    } else {
      DoOk(e.run, FinishMany(finished));
      FinishAll(e.run, finished);
      DropAllKept(cfg, e.(run := Do(e.run, FinishMany(finished))), finished);
      KeptFrame(e, e.(run := Do(e.run, FinishMany(finished))), CleanUp(cfg, e, finished), finished);
    }
  }

  lemma KeptFrame(e: Engine, e1: Engine, e': Engine, finished: seq<nat>)
    requires Kept(e1, e', finished) && e1 == e.(run := e1.run)
    ensures Kept(e, e', finished)
  {
  }

  /** One request over a step that did not raise. */
  lemma StepTracks(e: Engine, e1: Engine, events: seq<Event>, a: Absorbed, e': Engine, id: nat)
    requires Keyed(e.active, e.kv) && (Unfinished(e, id) ==> id in e.active)
    requires id in e.run.r.batcher.requests && id in e1.run.r.batcher.requests
    requires Advanced(e.run.r.batcher.requests[id], e1.run.r.batcher.requests[id], EventsOf(events, id))
    requires e1 == e.(run := e1.run)
    requires AbsorbedOk(e1, events, a) && a.error.None? && Cleaned(a.engine, e', FinalIds(a.outputs))
    ensures Unfinished(e', id) ==> id in e'.active
    ensures id in e'.active && Unfinished(e, id) && id in e.kv.lens && Holds(e, id, e.kv.lens[id]) ==>
      Unfinished(e', id) && id in e'.kv.lens && Holds(e', id, e'.kv.lens[id])
  {
    hide EventsOf, Plain, IsFinal, Outputs, FinalIds;
    FinalIdsOf(e.active, events, id);
    PlainFew(e.active, EventsOf(events, id));
  }

  lemma CleanedFrame(e: Engine, e1: Engine, events: seq<Event>, a: Absorbed, e': Engine)
    requires Tracked(e) && Forwarded(e.run.r.batcher.requests, e1.run.r.batcher.requests, events)
    requires e1 == e.(run := e1.run) && e1.run.r.queue == [] && e1.run.r.cancelled == e.run.r.cancelled
    requires AbsorbedOk(e1, events, a) && a.error.None? && Cleaned(a.engine, e', FinalIds(a.outputs))
    ensures e'.run.r.queue == [] && e'.run.r.cancelled == e.run.r.cancelled
    ensures Keyed(e'.active, e'.kv) && e'.counter == e.counter
    ensures e'.run.r.batcher.requests.Keys == e.run.r.batcher.requests.Keys
    ensures forall id :: id in e'.active ==> id in e.active
  {
    hide Advanced, Lengthened, Outputs, FinalIds;
  }

  /** What is left after a step that did not raise. */
  lemma StepTracked(e: Engine, e1: Engine, events: seq<Event>, a: Absorbed, e': Engine)
    requires Tracked(e) && Forwarded(e.run.r.batcher.requests, e1.run.r.batcher.requests, events)
    requires e1 == e.(run := e1.run) && e1.run.r.queue == [] && e1.run.r.cancelled == e.run.r.cancelled
    requires AbsorbedOk(e1, events, a) && a.error.None? && Cleaned(a.engine, e', FinalIds(a.outputs))
    ensures Tracked(e') && (Exact(e) ==> Exact(e'))
  {
    hide EventsOf, Advanced, AbsorbedOk, Cleaned, Outputs, FinalIds, Holds;
    CleanedFrame(e, e1, events, a, e');
    forall id | id in e.run.r.batcher.requests
      ensures Unfinished(e', id) ==> id in e'.active
      ensures id in e'.active && Unfinished(e, id) && id in e.kv.lens && Holds(e, id, e.kv.lens[id]) ==>
        Unfinished(e', id) && id in e'.kv.lens && Holds(e', id, e'.kv.lens[id])
    {
      StepTracks(e, e1, events, a, e', id);
    }
  }

  lemma PlainFew(active: map<nat, Params>, events: seq<Event>)
    ensures events == [] ==> Plain(active, events) == 0
    ensures |events| == 1 ==> Plain(active, events) == if IsFinal(active, events[0]) then 0 else 1
    ensures |events| == 1 && events[0].isFinal ==> Plain(active, events) == 0
  {
    if |events| == 1 {
      assert events[..0] == [];
      assert Plain(active, []) == 0;
    }
  }

  /** A step that raises has appended some tokens and cleaned nothing up. */
  lemma StepRaised(e: Engine, e1: Engine, events: seq<Event>, a: Absorbed)
    requires Tracked(e) && Forwarded(e.run.r.batcher.requests, e1.run.r.batcher.requests, events)
    requires e1 == e.(run := e1.run) && e1.run.r.queue == [] && e1.run.r.cancelled == e.run.r.cancelled
    requires AbsorbedOk(e1, events, a) && a.error.Some?
    ensures Tracked(a.engine)
  {
    hide EventsOf, Plain, IsFinal, Outputs, FinalIds;
    forall id | Unfinished(a.engine, id) ensures id in e.active {
      assert Advanced(e.run.r.batcher.requests[id], e1.run.r.batcher.requests[id], EventsOf(events, id));
      assert Unfinished(e, id);
    }
  }

  /** Every event of a step belongs to a request with a page table. */
  lemma EventsActive(e: Engine, requests': Store, events: seq<Event>)
    requires Tracked(e) && Forwarded(e.run.r.batcher.requests, requests', events)
    ensures forall i :: 0 <= i < |events| ==> events[i].id in e.active
  {
    forall i | 0 <= i < |events| ensures events[i].id in e.active {
      EventInHistory(events, i);
      assert Unfinished(e, events[i].id);
    }
  }

  lemma {:induction false} FinalsListed(active: map<nat, Params>, events: seq<Event>, ids: set<nat>)
    requires forall i :: 0 <= i < |events| ==> events[i].id in ids
    ensures forall i :: 0 <= i < |FinalIds(Outputs(active, events))| ==> FinalIds(Outputs(active, events))[i] in ids
  {
    if events != [] {
      FinalsListed(active, events[..|events| - 1], ids);
      var o := Outputs(active, events);
      assert o[..|o| - 1] == Outputs(active, events[..|events| - 1]);
    }
  }

  /** A step keeps every unfinished request with its page table; it can raise only
      because the pages ran out, never because a sequence is unknown; and if it does
      not raise, the three sets stay equal and the lengths stay exact. */
  lemma StepCoupled(cfg: Kv.Config, e: Engine)
    requires Covered(cfg, e)
    ensures var c := StepCall(cfg, e);
      && Covered(cfg, c.engine)
      && (c.Raised? ==> c.error == Kv.OutOfPages)
      && (c.Done? ==> c.value == Outputs(e.active, Forward(e).1))
      && (c.Done? && Coupled(cfg, e) ==> Coupled(cfg, c.engine))
  {
    hide Kv.Shape, RunOk, Tracked, Exact, Forwarded, Cleaned, Absorb, CleanUp, Forward;
    TrackedParts(e);
    ForwardOk(e);
    var (run, events) := Forward(e);
    var e1 := e.(run := run);
    EventsActive(e, run.r.batcher.requests, events);
    AbsorbOk(cfg, e1, events);
    var a := Absorb(cfg, e1, events);
    if a.error.Some? {
      StepRaised(e, e1, events, a);
    } else {
      ForwardedListed(e.run.r.batcher.requests, run.r.batcher.requests, events);
      FinalsListed(e.active, events, run.r.batcher.requests.Keys);
      CleanUpOk(cfg, a.engine, FinalIds(a.outputs));
      StepTracked(e, e1, events, a, CleanUp(cfg, a.engine, FinalIds(a.outputs)));
    }
  }

  lemma TrackedParts(e: Engine)
    requires Tracked(e)
    ensures Keyed(e.active, e.kv) && e.run.r.queue == []
  {
  }

  lemma ForwardedListed(requests: Store, requests': Store, events: seq<Event>)
    requires Forwarded(requests, requests', events)
    ensures forall i :: 0 <= i < |events| ==> events[i].id in requests'.Keys
  {
  }
}
