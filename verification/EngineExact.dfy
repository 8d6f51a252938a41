/** When a step of the engine raises, counted in blocks: a step of a healthy engine
    keeps the coupling exactly when the spare blocks suffice for the sequences whose
    last block is full and that get another token. */
module EngineExact {
  import opened Wrappers
  import opened Batching
  import opened Running
  import opened RunningProofs
  import opened RunningRuns
  import opened Engine
  import opened EngineProofs
  import opened PagedKvSpare
  import opened PagedKvOwnership
  import PagedKvSound
  import PagedKvContent
  import PagedKvOps
  import PagedKvChunks
  import PagedKvAppend
  import Kv = PagedKv
  import Pages = PagedKvRuns
  import PagedKvTheorems

  // ----- What an append leaves of the other sequences -----

  /** Everything that holds of a cache without forks whose lookups walked live nodes. */
  ghost predicate Fine(cfg: Kv.Config, w: Pages.World) {
    PagedKvTheorems.Healthy(cfg, w) && Solo(cfg, w.cache)
  }

  lemma FineParts(cfg: Kv.Config, w: Pages.World)
    requires Fine(cfg, w)
    ensures Kv.Shape(cfg, w.cache) && PagedKvSound.Sound(cfg, w.cache, w.leaked)
  {
  }

  lemma AppendFine(cfg: Kv.Config, w: Pages.World, id: nat, n: nat)
    requires Fine(cfg, w)
    ensures Kv.Shape(cfg, w.cache) && Fine(cfg, Pages.Step(cfg, w, Pages.DoAppend(id, n)))
  {
    hide PagedKvTheorems.Healthy, Solo, PagedKvSound.Sound, Kv.Append, PagedKvAppend.Appendable;
    FineParts(cfg, w);
    PagedKvAppend.SoloAppendable(cfg, w.cache, w.leaked, id, n);
    PagedKvTheorems.AppendHealthy(cfg, w, id, n);
    PagedKvAppend.AppendSolo(cfg, w.cache, w.leaked, id, n);
  }

  lemma AppendSplit(cfg: Kv.Config, c: Kv.Cache, id: nat, n: nat) returns (m: nat)
    requires Kv.Shape(cfg, c) && id in c.tables
    ensures m <= n && m <= Kv.Room(cfg, c, id)
    ensures Kv.Append(cfg, c, id, n).cache == Kv.Extend(cfg, Kv.FillLast(cfg, c, id, m), id, n - m).cache
  {
    m := if n <= Kv.Room(cfg, c, id) then n else Kv.Room(cfg, c, id);
  }

  /** Appending to one sequence leaves the room of all others as it is. */
  lemma AppendRooms(cfg: Kv.Config, w: Pages.World, id: nat, n: nat, k: nat)
    requires Fine(cfg, w) && id in w.cache.tables && k in w.cache.tables && k != id
    ensures Kv.Shape(cfg, w.cache)
    ensures var c' := Kv.Append(cfg, w.cache, id, n).cache;
      k in c'.tables && Kv.Room(cfg, c', k) == Kv.Room(cfg, w.cache, k)
  {
    hide Kv.Shape, PagedKvTheorems.Healthy, Solo, PagedKvSound.Sound, Kv.FillLast, PagedKvContent.InUseKept;
    hide PagedKvAppend.Appendable, Kv.Append, Kv.Extend, Kv.Room, Untouched;
    FineParts(cfg, w);
    var c, held := w.cache, w.leaked;
    var m := AppendSplit(cfg, c, id, n);
    var c1 := Kv.FillLast(cfg, c, id, m);
    PagedKvAppend.SoloAppendable(cfg, c, held, id, m);
    PagedKvAppend.FillLastChanges(cfg, c, id, m);
    PagedKvOps.FillLastSound(cfg, c, held, id, m);
    PagedKvAppend.ExtendKeeps(cfg, c1, held, id, n - m);
    RoomKept(cfg, c, held, id, m, c1, k, Kv.Append(cfg, c, id, n).cache);
  }

  lemma RoomKept(cfg: Kv.Config, c: Kv.Cache, held: multiset<nat>, id: nat, n: nat, c1: Kv.Cache, k: nat, c': Kv.Cache)
    requires Kv.Shape(cfg, c) && Kv.Shape(cfg, c1) && Kv.Shape(cfg, c') && PagedKvSound.Sound(cfg, c1, held)
    requires id in c.tables && k in c.tables && k != id && n <= Kv.Room(cfg, c, id)
    requires PagedKvAppend.Appendable(cfg, c, id, n) && c1 == Kv.FillLast(cfg, c, id, n)
    requires PagedKvContent.InUseKept(c1, c') && k in c'.tables && c'.tables[k] == c1.tables[k]
    ensures Kv.Room(cfg, c', k) == Kv.Room(cfg, c, k)
  {
    TableInUse(cfg, c1, held, k);
    hide PagedKvSound.Sound;
    var t := c.tables[k];
    assert t[|t| - 1] == Kv.Last(t) && t[|t| - 1] in t;
    if n == 0 {
      assert c1.blocks[Kv.Last(t)].filled == c.blocks[Kv.Last(t)].filled;
    }
  }

  // ----- The demand of a step -----

  /** The event is not final, and the last block of its sequence is full. */
  predicate Starving(cfg: Kv.Config, c: Kv.Cache, active: map<nat, Params>, ev: Event)
    requires Kv.Shape(cfg, c)
  {
    !IsFinal(active, ev) && ev.id in c.tables && Kv.Room(cfg, c, ev.id) == 0
  }

  /** The number of blocks that a step must allocate. */
  function Demand(cfg: Kv.Config, c: Kv.Cache, active: map<nat, Params>, events: seq<Event>): nat
    requires Kv.Shape(cfg, c)
  {
    if events == [] then 0
    else
      Demand(cfg, c, active, events[..|events| - 1])
      + if Starving(cfg, c, active, events[|events| - 1]) then 1 else 0
  }

  ghost predicate OneEach(events: seq<Event>) {
    forall i, j :: 0 <= i < j < |events| ==> events[i].id != events[j].id
  }

  /** The request of event k has no event before it. */
  lemma NoneBefore(events: seq<Event>, k: nat)
    requires k < |events| && |EventsOf(events, events[k].id)| <= 1
    ensures EventsOf(events, events[k].id) == [events[k]] && EventsOf(events[..k], events[k].id) == []
  {
    EventInHistory(events, k);
    assert events == events[..k] + events[k..];
    EventsOfConcat(events[..k], events[k..], events[k].id);
    EventInHistory(events[k..], 0);
  }

  lemma ForwardedOneEach(requests: Store, requests': Store, events: seq<Event>)
    requires Forwarded(requests, requests', events)
    ensures OneEach(events)
  {
    forall i, j | 0 <= i < j < |events| ensures events[i].id != events[j].id {
      assert Advanced(requests[events[j].id], requests'[events[j].id], EventsOf(events, events[j].id));
      NoneBefore(events, j);
      EventInHistory(events[..j], i);
    }
  }

  /** One token appended, in blocks. */
  lemma AppendOneSpare(cfg: Kv.Config, w: Pages.World, id: nat)
    requires Fine(cfg, w) && id in w.cache.tables
    ensures Kv.Shape(cfg, w.cache)
    ensures var r := Kv.Append(cfg, w.cache, id, 1); var d := if Kv.Room(cfg, w.cache, id) == 0 then 1 else 0;
      && (r.Throw? <==> d > Spare(w.cache))
      && (r.Return? ==> Spare(r.cache) == Spare(w.cache) - d)
  {
    FineParts(cfg, w);
    hide PagedKvTheorems.Healthy, Solo, PagedKvSound.Sound, Kv.Append, Spare, PagedKvChunks.BlocksFor;
    AppendThrowsIff(cfg, w.cache, w.leaked, id, 1);
    PagedKvChunks.BlocksForStep(1, cfg.blockSize);
  }

  /** The sequences without an event have the room they had. */
  ghost predicate OthersRoom(cfg: Kv.Config, c: Kv.Cache, events: seq<Event>, c': Kv.Cache)
    requires Kv.Shape(cfg, c) && Kv.Shape(cfg, c')
  {
    forall id :: id in c.tables && (forall i :: 0 <= i < |events| ==> events[i].id != id) ==>
      id in c'.tables && Kv.Room(cfg, c', id) == Kv.Room(cfg, c, id)
  }

  lemma OthersRoomNext(cfg: Kv.Config, c: Kv.Cache, events: seq<Event>, w: Pages.World, ev: Event)
    requires Kv.Shape(cfg, c) && Fine(cfg, w) && Kv.Shape(cfg, w.cache) && OthersRoom(cfg, c, events, w.cache)
    requires ev.id in w.cache.tables
    ensures OthersRoom(cfg, c, events + [ev], Kv.Append(cfg, w.cache, ev.id, 1).cache)
  {
    hide Fine, Kv.Shape, Kv.Append, Kv.Room;
    var all := events + [ev];
    forall id | id in c.tables && forall i :: 0 <= i < |all| ==> all[i].id != id
      ensures var c' := Kv.Append(cfg, w.cache, ev.id, 1).cache;
        id in c'.tables && Kv.Room(cfg, c', id) == Kv.Room(cfg, c, id)
    {
      assert all[|events|] == ev && forall i :: 0 <= i < |events| ==> all[i] == events[i];
      AppendRooms(cfg, w, ev.id, 1, id);
    }
  }

  lemma OthersRoomMore(cfg: Kv.Config, c: Kv.Cache, events: seq<Event>, c': Kv.Cache, ev: Event)
    requires Kv.Shape(cfg, c) && Kv.Shape(cfg, c') && OthersRoom(cfg, c, events, c')
    ensures OthersRoom(cfg, c, events + [ev], c')
    ensures OneEach(events + [ev]) && ev.id in c.tables ==>
      ev.id in c'.tables && Kv.Room(cfg, c', ev.id) == Kv.Room(cfg, c, ev.id)
  {
    hide Kv.Shape, Kv.Room;
    var all := events + [ev];
    assert all[|events|] == ev && forall i :: 0 <= i < |events| ==> all[i] == events[i];
  }

  /** The loop raises exactly when the demand exceeds the spare blocks; until then it
      has used exactly the demand and left the other sequences' room alone. */
  ghost predicate Absorbs(cfg: Kv.Config, e: Engine, events: seq<Event>, a: Absorbed)
    requires Kv.Shape(cfg, e.kv.cache)
  {
    && Fine(cfg, a.engine.kv) && Kv.Shape(cfg, a.engine.kv.cache)
    && (a.error.Some? <==> Demand(cfg, e.kv.cache, e.active, events) > Spare(e.kv.cache))
    && (a.error.None? ==>
         && Spare(a.engine.kv.cache) == Spare(e.kv.cache) - Demand(cfg, e.kv.cache, e.active, events)
         && OthersRoom(cfg, e.kv.cache, events, a.engine.kv.cache))
  }

  lemma DemandNext(cfg: Kv.Config, c: Kv.Cache, active: map<nat, Params>, events: seq<Event>, ev: Event)
    requires Kv.Shape(cfg, c)
    ensures Demand(cfg, c, active, events + [ev])
      == Demand(cfg, c, active, events) + if Starving(cfg, c, active, ev) then 1 else 0
  {
    assert (events + [ev])[..|events|] == events;
  }

  lemma AbsorbsNext(cfg: Kv.Config, e: Engine, events: seq<Event>, ev: Event, a: Absorbed)
    requires Kv.Shape(cfg, e.kv.cache) && EngineShape(cfg, a.engine) && Absorbs(cfg, e, events, a)
    requires Keyed(e.active, e.kv) && AbsorbedOk(e, events, a) && ev.id in e.active && OneEach(events + [ev])
    ensures Absorbs(cfg, e, events + [ev], AbsorbOne(cfg, a, ev))
  {
    hide Fine, Kv.Shape, RunOk, Pages.Step, Kv.Append, IsFinal, Lengthened, Spare, Kv.Room, OthersRoom, Demand, OneEach;
    var w := a.engine.kv;
    DemandNext(cfg, e.kv.cache, e.active, events, ev);
    if a.error.None? {
      OthersRoomMore(cfg, e.kv.cache, events, w.cache, ev);
      if !IsFinal(e.active, ev) {
        assert ev.id in w.cache.tables.Keys && ev.id in e.kv.cache.tables.Keys;
        AppendOneSpare(cfg, w, ev.id);
        AppendFine(cfg, w, ev.id, 1);
        AppendStep(cfg, w, ev.id, 1);
        OthersRoomNext(cfg, e.kv.cache, events, w, ev);
      }
    }
  }

  lemma AbsorbsStart(cfg: Kv.Config, e: Engine)
    requires EngineShape(cfg, e) && Fine(cfg, e.kv)
    ensures Absorbs(cfg, e, [], Absorbed(None, e, []))
  {
    hide Fine, Kv.Shape, RunOk;
  }

  lemma {:induction false} AbsorbDemand(cfg: Kv.Config, e: Engine, events: seq<Event>)
    requires EngineShape(cfg, e) && Keyed(e.active, e.kv) && Fine(cfg, e.kv) && OneEach(events)
    requires forall i :: 0 <= i < |events| ==> events[i].id in e.active
    ensures Absorbs(cfg, e, events, Absorb(cfg, e, events))
  {
    hide Absorbs, AbsorbOne, AbsorbedOk, Fine, Kv.Shape, RunOk;
    if events == [] {
      AbsorbsStart(cfg, e);
    } else {
      var u, ev := events[..|events| - 1], events[|events| - 1];
      AbsorbDemand(cfg, e, u);
      AbsorbOk(cfg, e, u);
      assert u + [ev] == events;
      AbsorbsNext(cfg, e, u, ev, Absorb(cfg, e, u));
    }
  }

  // ----- Where an append that raises leaves the engine -----

  /** The loop stops at an event that is not final, with the tokens of the events
      before it appended and nothing else changed. */
  lemma {:induction false} AbsorbStops(cfg: Kv.Config, e: Engine, events: seq<Event>) returns (k: nat)
    requires EngineShape(cfg, e) && Keyed(e.active, e.kv) && Fine(cfg, e.kv)
    requires forall i :: 0 <= i < |events| ==> events[i].id in e.active
    ensures var a := Absorb(cfg, e, events);
      && a.engine == e.(kv := a.engine.kv) && Fine(cfg, a.engine.kv)
      && (a.error.Some? ==>
            k < |events| && !IsFinal(e.active, events[k])
            && Lengthened(e.active, e.kv.lens, events[..k], a.engine.kv.lens))
  {
    hide Kv.Shape, RunOk, Fine, Lengthened, IsFinal, Pages.Step, Kv.Append, EventsOf;
    k := 0;
    if events != [] {
      var u, ev := events[..|events| - 1], events[|events| - 1];
      var b := Absorb(cfg, e, u);
      k := AbsorbStops(cfg, e, u);
      AbsorbOk(cfg, e, u);
      if b.error.Some? {
        assert u[..k] == events[..k];
      } else if !IsFinal(e.active, ev) {
        assert ev.id in b.engine.kv.cache.tables.Keys;
        AppendFine(cfg, b.engine.kv, ev.id, 1);
        if Kv.Append(cfg, b.engine.kv.cache, ev.id, 1).Throw? {
          FineThrows(cfg, b.engine.kv, ev.id);
          k := |u|;
        }
      }
    }
  }

  lemma FineThrows(cfg: Kv.Config, w: Pages.World, id: nat)
    requires Fine(cfg, w) && id in w.cache.tables
    ensures Kv.Shape(cfg, w.cache)
    ensures Kv.Append(cfg, w.cache, id, 1).Throw? ==> Pages.Step(cfg, w, Pages.DoAppend(id, 1)) == w
  {
    FineParts(cfg, w);
    hide PagedKvTheorems.Healthy, Solo, Kv.Append, Kv.Shape, Pages.Step;
    if Kv.Append(cfg, w.cache, id, 1).Throw? {
      PagedKvTheorems.AppendOneThrows(cfg, w, id);
    }
  }

  lemma StoppedBehind(e: Engine, e1: Engine, events: seq<Event>, k: nat, e': Engine)
    requires Tracked(e) && Exact(e) && Forwarded(e.run.r.batcher.requests, e1.run.r.batcher.requests, events)
    requires e1 == e.(run := e1.run) && e' == e1.(kv := e'.kv)
    requires k < |events| && !IsFinal(e.active, events[k]) && events[k].id in e.active
    requires Lengthened(e.active, e.kv.lens, events[..k], e'.kv.lens)
    ensures !Sized(e')
  {
    hide EventsOf, Plain;
    var id := events[k].id;
    assert Advanced(e.run.r.batcher.requests[id], e1.run.r.batcher.requests[id], EventsOf(events, id));
    NoneBefore(events, k);
    PlainFew(e.active, EventsOf(events[..k], id));
    assert Holds(e, id, e.kv.lens[id]);
    assert id in e'.active && !Holds(e', id, e'.kv.lens[id]);
  }

  // ----- What a step needs, told before it is made -----

  /** The sequences whose last block is full and that get another token. */
  function StarvingIds(cfg: Kv.Config, c: Kv.Cache, active: map<nat, Params>, events: seq<Event>): set<nat>
    requires Kv.Shape(cfg, c)
  {
    if events == [] then {}
    else
      StarvingIds(cfg, c, active, events[..|events| - 1])
      + if Starving(cfg, c, active, events[|events| - 1]) then {events[|events| - 1].id} else {}
  }

  lemma {:induction false} StarvingEvent(cfg: Kv.Config, c: Kv.Cache, active: map<nat, Params>, events: seq<Event>,
                                         id: nat)
    returns (i: nat)
    requires Kv.Shape(cfg, c) && id in StarvingIds(cfg, c, active, events)
    ensures i < |events| && events[i].id == id && Starving(cfg, c, active, events[i])
  {
    hide Starving, Kv.Shape;
    var u, ev := events[..|events| - 1], events[|events| - 1];
    if id in StarvingIds(cfg, c, active, u) {
      i := StarvingEvent(cfg, c, active, u, id);
    } else {
      i := |u|;
    }
  }

  lemma {:induction false} DemandIsStarving(cfg: Kv.Config, c: Kv.Cache, active: map<nat, Params>, events: seq<Event>)
    requires Kv.Shape(cfg, c) && OneEach(events)
    ensures |StarvingIds(cfg, c, active, events)| == Demand(cfg, c, active, events)
  {
    hide Starving, Kv.Shape;
    if events != [] {
      var u, ev := events[..|events| - 1], events[|events| - 1];
      DemandIsStarving(cfg, c, active, u);
      forall i | 0 <= i < |u| ensures u[i].id != ev.id {
        assert u[i] == events[i] && ev == events[|u|];
      }
      if ev.id in StarvingIds(cfg, c, active, u) {
        var i := StarvingEvent(cfg, c, active, u, ev.id);
        assert false;
      }
    }
  }

  lemma {:induction false} StarvingListed(cfg: Kv.Config, c: Kv.Cache, active: map<nat, Params>, events: seq<Event>,
                                          i: nat)
    requires Kv.Shape(cfg, c) && i < |events| && Starving(cfg, c, active, events[i])
    ensures events[i].id in StarvingIds(cfg, c, active, events)
  {
    hide Starving, Kv.Shape;
    var u := events[..|events| - 1];
    if i < |u| {
      assert u[i] == events[i];
      StarvingListed(cfg, c, active, u, i);
    }
  }

  /** The request is in the next batch, its next token is not its last one, and the last
      block of its sequence is full. */
  ghost predicate Starves(cfg: Kv.Config, e: Engine, id: nat) {
    && EngineShape(cfg, e) && BatcherOk(e.run.r.batcher) && InBatch(e.run.r.batcher, id)
    && id in e.run.r.batcher.requests && RequestOk(e.run.r.batcher.requests[id])
    && !IsFinal(e.active, NextEvent(e.run.r, id))
    && id in e.kv.cache.tables && Kv.Room(cfg, e.kv.cache, id) == 0
  }

  /** The sequences that ask for another block in the next step. */
  ghost function Starved(cfg: Kv.Config, e: Engine): set<nat> {
    set id | id in e.kv.cache.tables && Starves(cfg, e, id)
  }

  /** They are no more than there are spare blocks. */
  ghost predicate PagesSuffice(cfg: Kv.Config, e: Engine) {
    |Starved(cfg, e)| <= Spare(e.kv.cache)
  }

  /** The runner ends some request in the next step. */
  ghost predicate SomeEnds(e: Engine) {
    exists id :: id in e.run.r.batcher.requests && Ends(e, id)
  }

  ghost predicate Ends(e: Engine, id: nat)
    requires id in e.run.r.batcher.requests
  {
    && BatcherOk(e.run.r.batcher) && InBatch(e.run.r.batcher, id)
    && RequestOk(e.run.r.batcher.requests[id]) && NextEvent(e.run.r, id).isFinal
  }

  /** The events of a step are the next events of the requests in its batch. */
  lemma ForwardEvents(e: Engine, id: nat)
    requires RunOk(e.run) && e.run.r.queue == [] && id in e.run.r.batcher.requests
    ensures BatcherOk(e.run.r.batcher) && RequestOk(e.run.r.batcher.requests[id])
    ensures EventsOf(Forward(e).1, id) == if InBatch(e.run.r.batcher, id) then [NextEvent(e.run.r, id)] else []
  {
    RunOkParts(e.run);
    hide RunOk, Ok, BatcherOk, Step, InBatch, NextEvent, EventsOf, RequestOk;
    OkRequest(e.run, id);
    assert [] + Forward(e).1 == Forward(e).1;
    StepEvent(e.run, Forward(e).1, id);
  }

  lemma StarvesIff(cfg: Kv.Config, e: Engine, id: nat)
    requires EngineShape(cfg, e) && e.run.r.queue == [] && id in e.kv.cache.tables
    requires Forwarded(e.run.r.batcher.requests, Forward(e).0.r.batcher.requests, Forward(e).1)
    ensures id in StarvingIds(cfg, e.kv.cache, e.active, Forward(e).1) <==> Starves(cfg, e, id)
  {
    hide RunOk, Kv.Shape, InBatch, NextEvent, EventsOf, RequestOk, IsFinal, Kv.Room, BatcherOk, StarvingIds, Forward,
      Advanced;
    var events := Forward(e).1;
    if id in StarvingIds(cfg, e.kv.cache, e.active, events) {
      var i := StarvingEvent(cfg, e.kv.cache, e.active, events, id);
      ForwardEvents(e, id);
      EventInHistory(events, i);
    }
    if Starves(cfg, e, id) {
      ForwardEvents(e, id);
      var i := OwnEvent(events, id);
      StarvingListed(cfg, e.kv.cache, e.active, events, i);
    }
  }

  lemma {:induction false} OwnEvent(events: seq<Event>, id: nat) returns (i: nat)
    requires |EventsOf(events, id)| == 1
    ensures i < |events| && events[i].id == id && EventsOf(events, id) == [events[i]]
  {
    var u := events[..|events| - 1];
    if events[|events| - 1].id == id {
      i := |u|;
    } else {
      i := OwnEvent(u, id);
    }
  }

  /** Its demand is the number of starved sequences. */
  lemma DemandIsStarved(cfg: Kv.Config, e: Engine)
    requires Covered(cfg, e)
    ensures Demand(cfg, e.kv.cache, e.active, Forward(e).1) == |Starved(cfg, e)|
  {
    hide Kv.Shape, RunOk, Forwarded, Forward, Starves, StarvingIds, Starving, OneEach;
    TrackedParts(e);
    ForwardOk(e);
    var c, events := e.kv.cache, Forward(e).1;
    ForwardedOneEach(e.run.r.batcher.requests, Forward(e).0.r.batcher.requests, events);
    DemandIsStarving(cfg, c, e.active, events);
    forall id ensures id in StarvingIds(cfg, c, e.active, events) <==> id in Starved(cfg, e) {
      if id in StarvingIds(cfg, c, e.active, events) {
        StarvingTable(cfg, c, e.active, events, id);
      }
      if id in c.tables {
        StarvesIff(cfg, e, id);
      }
    }
    assert StarvingIds(cfg, c, e.active, events) == Starved(cfg, e);
  }

  lemma StarvingTable(cfg: Kv.Config, c: Kv.Cache, active: map<nat, Params>, events: seq<Event>, id: nat)
    requires Kv.Shape(cfg, c) && id in StarvingIds(cfg, c, active, events)
    ensures id in c.tables
  {
    var i := StarvingEvent(cfg, c, active, events, id);
  }

  // ----- The step -----

  /** A step raises if and only if more sequences with a full last block get another
      token than there are spare blocks. */
  lemma StepDoneIff(cfg: Kv.Config, e: Engine)
    requires Covered(cfg, e) && Fine(cfg, e.kv)
    ensures EngineShape(cfg, e) && (StepCall(cfg, e).Done? <==> PagesSuffice(cfg, e))
    ensures var (run, events) := Forward(e);
      Absorbs(cfg, e.(run := run), events, Absorb(cfg, e.(run := run), events))
  {
    hide Kv.Shape, RunOk, Tracked, Forwarded, Absorb, CleanUp, Forward, Fine, Spare, Demand, OneEach, Starved;
    TrackedParts(e);
    ForwardOk(e);
    var (run, events) := Forward(e);
    var e1 := e.(run := run);
    EventsActive(e, run.r.batcher.requests, events);
    ForwardedOneEach(e.run.r.batcher.requests, run.r.batcher.requests, events);
    AbsorbDemand(cfg, e1, events);
    DemandIsStarved(cfg, e);
  }

  /** On a healthy cache a step keeps everything in step if and only if the pages suffice
      for it; if they do not, some sequence always gets too short. */
  lemma StepCoupledIff(cfg: Kv.Config, e: Engine)
    requires Coupled(cfg, e) && Fine(cfg, e.kv)
    ensures EngineShape(cfg, e)
    ensures Coupled(cfg, StepCall(cfg, e).engine) <==> PagesSuffice(cfg, e)
    ensures Sized(StepCall(cfg, e).engine) <==> PagesSuffice(cfg, e)
  {
    hide Kv.Shape, RunOk, Tracked, Sized, Forwarded, Absorb, CleanUp, Forward, Fine, Lengthened, IsFinal, PagesSuffice;
    StepDoneIff(cfg, e);
    StepCoupled(cfg, e);
    TrackedParts(e);
    ForwardOk(e);
    var (run, events) := Forward(e);
    var e1 := e.(run := run);
    EventsActive(e, run.r.batcher.requests, events);
    var k := AbsorbStops(cfg, e1, events);
    if StepCall(cfg, e).Raised? {
      StoppedBehind(e, e1, events, k, Absorb(cfg, e1, events).engine);
    }
  }

  /** The page tables, the active requests and the unfinished requests have the same ids. */
  ghost predicate SameIds(e: Engine) {
    && e.kv.cache.tables.Keys == e.active.Keys
    && forall id :: id in e.active <==> Unfinished(e, id)
  }

  lemma CoupledSame(cfg: Kv.Config, e: Engine)
    requires Coupled(cfg, e)
    ensures SameIds(e)
  {
    hide EngineShape;
  }

  /** A request that the runner ends in a step that raises stays active. */
  lemma RaisedSame(e: Engine, e1: Engine, events: seq<Event>, e': Engine)
    requires Tracked(e) && Exact(e) && Forwarded(e.run.r.batcher.requests, e1.run.r.batcher.requests, events)
    requires e1 == e.(run := e1.run) && e' == e1.(kv := e'.kv) && Keyed(e.active, e'.kv)
    ensures SameIds(e') <==> forall id :: id in e.run.r.batcher.requests ==>
      EventsOf(events, id) == [] || !EventsOf(events, id)[0].isFinal
  {
    hide EventsOf, Holds;
    var requests, requests' := e.run.r.batcher.requests, e1.run.r.batcher.requests;
    if forall id :: id in requests ==> EventsOf(events, id) == [] || !EventsOf(events, id)[0].isFinal {
      forall id ensures id in e'.active <==> Unfinished(e', id) {
        assert id in e.active ==> Unfinished(e, id);
        if id in requests {
          assert Advanced(requests[id], requests'[id], EventsOf(events, id));
        }
      }
    }
    if id :| id in requests && EventsOf(events, id) != [] && EventsOf(events, id)[0].isFinal {
      assert Advanced(requests[id], requests'[id], EventsOf(events, id));
      assert Unfinished(e, id) && !Unfinished(e', id) && id in e'.active;
    }
  }

  lemma SomeEndsIff(e: Engine)
    requires RunOk(e.run) && e.run.r.queue == []
    ensures SomeEnds(e) <==> !forall id :: id in e.run.r.batcher.requests ==>
      EventsOf(Forward(e).1, id) == [] || !EventsOf(Forward(e).1, id)[0].isFinal
  {
    hide RunOk, EventsOf, Forward, InBatch, NextEvent, BatcherOk, RequestOk;
    forall id | id in e.run.r.batcher.requests
      ensures Ends(e, id) <==> EventsOf(Forward(e).1, id) != [] && EventsOf(Forward(e).1, id)[0].isFinal
    {
      ForwardEvents(e, id);
    }
  }

  /** The three sets themselves stay equal if and only if the pages suffice or the runner
      ends no request in the step. */
  lemma StepSetsIff(cfg: Kv.Config, e: Engine)
    requires Coupled(cfg, e) && Fine(cfg, e.kv)
    ensures EngineShape(cfg, e)
    ensures SameIds(StepCall(cfg, e).engine) <==> PagesSuffice(cfg, e) || !SomeEnds(e)
  {
    hide Kv.Shape, RunOk, Tracked, Exact, Forwarded, Absorb, CleanUp, Forward, Fine, PagesSuffice, SameIds, SomeEnds;
    StepDoneIff(cfg, e);
    StepCoupledIff(cfg, e);
    TrackedParts(e);
    ForwardOk(e);
    var (run, events) := Forward(e);
    var e1 := e.(run := run);
    EventsActive(e, run.r.batcher.requests, events);
    AbsorbOk(cfg, e1, events);
    if PagesSuffice(cfg, e) {
      CoupledSame(cfg, StepCall(cfg, e).engine);
    } else {
      RaisedSame(e, e1, events, Absorb(cfg, e1, events).engine);
      SomeEndsIff(e);
    }
  }
}
