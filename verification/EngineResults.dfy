/** What a step of the engine returns, result by result, and what becomes of each request
    that got a token. */
module EngineResults {
  import opened Batching
  import opened Running
  import opened RunningProofs
  import opened RunningRuns
  import opened Engine
  import opened EngineProofs
  import opened EngineExact
  import Kv = PagedKv

  lemma {:induction false} OutputAt(active: map<nat, Params>, events: seq<Event>, i: nat)
    requires i < |events|
    ensures |Outputs(active, events)| == |events|
    ensures var ev, o := events[i], Outputs(active, events)[i];
      && o.id == ev.id && o.token == ev.token
      && (o.isFinal <==> ev.isFinal || (ev.id in active && ev.token in active[ev.id].stops))
  {
    if i < |events| - 1 {
      OutputAt(active, events[..|events| - 1], i);
    } else {
      OutputsLength(active, events[..|events| - 1]);
    }
  }

  lemma {:induction false} OutputsLength(active: map<nat, Params>, events: seq<Event>)
    ensures |Outputs(active, events)| == |events|
  {
    if events != [] {
      OutputsLength(active, events[..|events| - 1]);
    }
  }

  /** Among events of different requests, an id is cleaned up exactly if its own event is
      final. */
  lemma FinalIff(active: map<nat, Params>, events: seq<Event>, i: nat)
    requires OneEach(events) && i < |events|
    ensures |Outputs(active, events)| == |events|
    ensures events[i].id in FinalIds(Outputs(active, events)) <==> Outputs(active, events)[i].isFinal
  {
    var o := Outputs(active, events);
    FinalIdsFrom(o);
    OutputsLength(active, events);
    forall k | 0 <= k < |o| ensures o[k].id == events[k].id {
      OutputAt(active, events, k);
    }
    if Outputs(active, events)[i].isFinal {
      assert o[i].id == events[i].id && o[i].isFinal;
    }
  }

  /** One event for the request: one more token in the cache, unless it is final. */
  lemma OwnLength(active: map<nat, Params>, events: seq<Event>, i: nat, ends: bool)
    requires i < |events| && |EventsOf(events, events[i].id)| <= 1
    requires ends <==> events[i].isFinal || (events[i].id in active && events[i].token in active[events[i].id].stops)
    ensures Plain(active, EventsOf(events, events[i].id)) == if ends then 0 else 1
  {
    NoneBefore(events, i);
    PlainFew(active, EventsOf(events, events[i].id));
  }

  /** The result of one event and the request afterwards. */
  ghost predicate ResultOk(e: Engine, ev: Event, o: Event, e': Engine) {
    && o.id == ev.id && o.token == ev.token && ev.id in e.active
    && (o.isFinal <==> ev.isFinal || ev.token in e.active[ev.id].stops)
    && (o.isFinal ==> ev.id !in e'.active && ev.id !in e'.kv.cache.tables)
    && (!o.isFinal ==>
          && ev.id in e'.active && e'.active[ev.id] == e.active[ev.id]
          && ev.id in e'.kv.cache.tables && ev.id in e.kv.lens && ev.id in e'.kv.lens
          && e'.kv.lens[ev.id] == e.kv.lens[ev.id] + 1)
  }

  lemma ResultAt(e: Engine, e1: Engine, events: seq<Event>, a: Absorbed, e': Engine, i: nat)
    requires Keyed(e.active, e.kv) && Keyed(e'.active, e'.kv) && e1 == e.(run := e1.run)
    requires OneEach(events) && i < |events| && events[i].id in e.active && |EventsOf(events, events[i].id)| <= 1
    requires AbsorbedOk(e1, events, a) && a.error.None? && Kept(a.engine, e', FinalIds(a.outputs))
    ensures |Outputs(e.active, events)| == |events| && ResultOk(e, events[i], Outputs(e.active, events)[i], e')
  {
    hide EventsOf, Outputs, FinalIds, IsFinal, Plain;
    OutputAt(e.active, events, i);
    FinalIff(e.active, events, i);
    var id := events[i].id;
    assert id in e.kv.lens.Keys && (id in e'.kv.cache.tables.Keys <==> id in e'.active.Keys);
    OwnLength(e.active, events, i, Outputs(e.active, events)[i].isFinal);
  }

  /** A step that returns hands back one result for each event, in order: it has the id and
      the token of the event, and is final exactly if the event is or the token is a stop
      token of its request. A request with a final result has neither an entry nor a page
      table any more; any other goes on with one token more in the cache. */
  lemma StepResults(cfg: Kv.Config, e: Engine)
    requires Covered(cfg, e)
    ensures var c, events := StepCall(cfg, e), Forward(e).1;
      c.Done? ==> |c.value| == |events| && forall i :: 0 <= i < |events| ==>
        ResultOk(e, events[i], c.value[i], c.engine)
  {
    hide Kv.Shape, RunOk, Exact, Forwarded, Absorb, CleanUp, Forward, ResultOk, OneEach, EventsOf, FinalIds, Outputs,
      Advanced, Tracked;
    TrackedParts(e);
    ForwardOk(e);
    StepCoupled(cfg, e);
    var (run, events) := Forward(e);
    var e1 := e.(run := run);
    EventsActive(e, run.r.batcher.requests, events);
    AbsorbOk(cfg, e1, events);
    var a := Absorb(cfg, e1, events);
    if a.error.None? {
      OutputsLength(e.active, events);
      ForwardedListed(e.run.r.batcher.requests, run.r.batcher.requests, events);
      ForwardedOneEach(e.run.r.batcher.requests, run.r.batcher.requests, events);
      FinalsListed(e.active, events, run.r.batcher.requests.Keys);
      CleanUpOk(cfg, a.engine, FinalIds(a.outputs));
      var e' := CleanUp(cfg, a.engine, FinalIds(a.outputs));
      forall i | 0 <= i < |events| ensures ResultOk(e, events[i], a.outputs[i], e') {
        ForwardedFew(e.run.r.batcher.requests, run.r.batcher.requests, events, i);
        ResultAt(e, e1, events, a, e', i);
      }
    }
  }

  lemma ForwardedFew(requests: Store, requests': Store, events: seq<Event>, i: nat)
    requires Forwarded(requests, requests', events) && i < |events|
    ensures |EventsOf(events, events[i].id)| <= 1
  {
    assert Advanced(requests[events[i].id], requests'[events[i].id], EventsOf(events, events[i].id));
  }
}
