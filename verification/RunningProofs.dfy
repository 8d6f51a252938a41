/** The stream protocol: in every run the events of a request are its generated
    tokens, in order, ended by at most one final event. */
module RunningProofs {
  import opened Sums
  import opened Batching
  import opened BatchingProofs
  import opened Running

  // ----- What one request has emitted -----

  /** The i-th token a request generates, from its prompt alone. */
  function TokenAt(vocab: Vocab, prompt: seq<int>, i: nat): int {
    Next(vocab, if i == 0 then LastOf(prompt) else TokenAt(vocab, prompt, i - 1))
  }

  predicate EndsAt(eos: int, r: Request, i: nat)
    requires RequestOk(r) && i < |r.generated|
  {
    EndsWith(eos, r, r.generated[i], i + 1)
  }

  predicate Ended(eos: int, r: Request)
    requires RequestOk(r)
  {
    r.generated != [] && EndsAt(eos, r, |r.generated| - 1)
  }

  /** The tokens follow from the prompt, and none before the last ended the request. */
  ghost predicate Tokens(vocab: Vocab, eos: int, r: Request) {
    && RequestOk(r)
    && (forall i :: 0 <= i < |r.generated| ==> r.generated[i] == TokenAt(vocab, r.prompt, i))
    && (forall i :: 0 <= i < |r.generated| - 1 ==> !EndsAt(eos, r, i))
  }

  function EventsOf(hist: seq<Event>, id: nat): seq<Event> {
    if hist == [] then []
    else EventsOf(hist[..|hist| - 1], id) + if hist[|hist| - 1].id == id then [hist[|hist| - 1]] else []
  }

  /** The events a request must have emitted. */
  ghost function Script(eos: int, id: nat, r: Request): (s: seq<Event>)
    requires RequestOk(r)
    ensures |s| == |r.generated|
  {
    seq(|r.generated|, i requires 0 <= i < |r.generated| => Event(id, r.generated[i], EndsAt(eos, r, i)))
  }

  // ----- The world -----

  /** hist: every event ever pushed; stopped: every id passed to update_requests_state
      from outside. */
  datatype World = World(r: Runner, hist: seq<Event>, stopped: set<nat>)

  /** What does not depend on the lists. */
  ghost predicate Story(w: World, id: nat) {
    && id in w.r.batcher.requests
    && var q := w.r.batcher.requests[id];
       && Tokens(w.r.vocab, w.r.eos, q)
       && EventsOf(w.hist, id) == Script(w.r.eos, id, q)
       && (q.state != Finished ==> id in w.r.batcher.known && id !in w.r.cancelled && !Ended(w.r.eos, q))
       && (q.state == Finished && id !in w.r.cancelled && id !in w.stopped ==> Ended(w.r.eos, q))
  }

  ghost predicate Placed(w: World, id: nat)
    requires id in w.r.batcher.requests
  {
    var b, q := w.r.batcher, w.r.batcher.requests[id];
    && (id in b.waiting ==> q.generated == [] && (q.state == Waiting || q.state == Finished))
    && (id in b.running ==> (q.state == Running && q.generated != []) || q.state == Finished)
    && (id !in b.waiting && id !in b.running ==> q.state == Finished)
  }

  /** The invariant between the operations. */
  ghost predicate Ok(w: World) {
    && BatcherOk(w.r.batcher)
    && forall id :: id in w.r.batcher.requests ==> Story(w, id) && Placed(w, id)
  }

  // ----- Generating one token -----

  lemma GenerateTokens(vocab: Vocab, eos: int, id: nat, r: Request, prefill: bool)
    requires Tokens(vocab, eos, r) && !Ended(eos, r) && (prefill <==> r.generated == [])
    ensures var (r', e) := Generate(vocab, eos, id, r, prefill);
      && Tokens(vocab, eos, r')
      && Script(eos, id, r') == Script(eos, id, r) + [e]
      && (e.isFinal <==> Ended(eos, r'))
      && r'.state == if e.isFinal then Finished else r.state
  {
    var (r', e) := Generate(vocab, eos, id, r, prefill);
    var n := |r.generated|;
    assert forall i :: 0 <= i < n ==> r'.generated[i] == r.generated[i];
    assert r'.generated[n] == TokenAt(vocab, r.prompt, n);
    assert forall i :: 0 <= i < n ==> EndsAt(eos, r', i) == EndsAt(eos, r, i);
  }

  /** A list of different ids: each gets one token and one event, the others none. */
  lemma {:induction false} GenerateAllEach(vocab: Vocab, eos: int, g: Generated, ids: seq<nat>, prefill: bool, id: nat)
    requires Listed(g.requests, ids) && NoDup(ids) && id in g.requests
    requires forall id :: id in g.requests ==> RequestOk(g.requests[id])
    ensures var g' := GenerateAll(vocab, eos, g, ids, prefill);
      if id in ids then
        && g'.requests[id] == Generate(vocab, eos, id, g.requests[id], prefill).0
        && EventsOf(g'.events, id) == EventsOf(g.events, id) + [Generate(vocab, eos, id, g.requests[id], prefill).1]
      else
        g'.requests[id] == g.requests[id] && EventsOf(g'.events, id) == EventsOf(g.events, id)
  {
    if ids != [] {
      var u, x := ids[..|ids| - 1], ids[|ids| - 1];
      assert ids == u + [x] && x !in u;
      GenerateAllEach(vocab, eos, g, u, prefill, id);
      var h, g' := GenerateAll(vocab, eos, g, u, prefill), GenerateAll(vocab, eos, g, ids, prefill);
      assert g'.events[..|g'.events| - 1] == h.events;
    }
  }

  lemma {:induction false} EventsOfConcat(a: seq<Event>, b: seq<Event>, id: nat)
    ensures EventsOf(a + b, id) == EventsOf(a, id) + EventsOf(b, id)
  {
    if b == [] {
      assert a + b == a;
    } else {
      EventsOfConcat(a, b[..|b| - 1], id);
      assert (a + b)[..|a + b| - 1] == a + b[..|b| - 1];
    }
  }

  // ----- A step: decide, cancel in between, execute -----

  lemma StateIrrelevant(vocab: Vocab, eos: int, id: nat, r: Request, s: RequestState)
    requires RequestOk(r)
    ensures Tokens(vocab, eos, r.(state := s)) == Tokens(vocab, eos, r)
    ensures Script(eos, id, r.(state := s)) == Script(eos, id, r)
    ensures Ended(eos, r.(state := s)) == Ended(eos, r)
  {
    var r' := r.(state := s);
    assert forall i :: 0 <= i < |r.generated| ==> EndsAt(eos, r', i) == EndsAt(eos, r, i);
  }

  /** Where a request stands while a batch is in flight. */
  ghost predicate Batched(w: World, p: seq<nat>, d: seq<nat>, id: nat)
    requires id in w.r.batcher.requests
  {
    var b, q := w.r.batcher, w.r.batcher.requests[id];
    && (id in b.waiting ==> q.generated == [] && (q.state == Waiting || q.state == Finished) && id !in p && id !in d)
    && (id in p ==> q.generated == []) && (id in d ==> q.generated != [])
    && (id in p || id in d ==> q.state == Running || (q.state == Finished && id in w.r.cancelled))
    && (id in b.running ==> id in p || id in d)
    && (id !in b.waiting && id !in b.running ==> q.state == Finished)
  }

  ghost predicate MidOk(w: World, p: seq<nat>, d: seq<nat>) {
    && BatcherOk(w.r.batcher) && Apart(p, d)
    && Listed(w.r.batcher.requests, p) && Listed(w.r.batcher.requests, d)
    && forall id :: id in w.r.batcher.requests ==> Story(w, id) && Batched(w, p, d, id)
  }

  /** Between steps the filter drops only requests that are already finished. */
  lemma FilterChangesNothing(w: World)
    requires Ok(w)
    ensures var b := w.r.batcher; var b' := Filter(b);
      && b'.requests == b.requests
      && (forall id :: id in b'.running <==> id in b.running && b.requests[id].state != Finished)
      && (forall id :: id in b.known && id in b.requests && b.requests[id].state != Finished ==> id in b'.known)
  {
    hide Ok, BatcherOk, BatcherShape, Dropped, MarkFinished;
    OkShape(w);
    DroppedFinished(w);
    var b := w.r.batcher;
    var d := Dropped(b, |b.running|);
    DropMembers(b.running, d);
    MarkedNothing(b.requests, d);
  }

  /** The filter drops the running requests that are finished. */
  lemma DroppedFinished(w: World)
    requires Ok(w)
    ensures var b := w.r.batcher; var d := Dropped(b, |b.running|);
      forall id :: id in d <==> id in b.running && id in b.requests && b.requests[id].state == Finished
  {
    hide Ok, Apart, Listed, Keeps;
    OkShape(w);
    var b := w.r.batcher;
    assert b.running[..|b.running|] == b.running;
    forall id | id in b.running
      ensures id in b.requests && (Keeps(b.requests, id) <==> b.requests[id].state != Finished)
    {
      KeptWhileRunning(w, id);
    }
  }

  lemma MarkedNothing(requests: Store, ids: set<nat>)
    requires forall id :: id in ids && id in requests ==> requests[id].state == Finished
    ensures MarkFinished(requests, ids) == requests
  {
  }

  lemma KeptWhileRunning(w: World, id: nat)
    requires Ok(w) && id in w.r.batcher.running
    ensures id in w.r.batcher.requests
    ensures Keeps(w.r.batcher.requests, id) <==> w.r.batcher.requests[id].state != Finished
  {
    var b := w.r.batcher;
    var i :| 0 <= i < |b.running| && b.running[i] == id;
    assert Story(w, id) && Placed(w, id);
  }

  lemma ScheduleMid(w: World)
    requires Ok(w)
    ensures var s := Schedule(w.r.batcher);
      MidOk(w.(r := w.r.(batcher := s.batcher)), s.prefill, s.decode)
  {
    var b := w.r.batcher;
    var s := Schedule(b);
    var b1 := Filter(b);
    FilterOk(b);
    FilterChangesNothing(w);
    var news := ScheduleKeeps(b);
    ScheduleShape(b);
    var w' := w.(r := w.r.(batcher := s.batcher));
    NewsApart(b1, s.batcher, news);
    hide BatcherOk, Apart, Listed, Schedule, Filter;
    forall id | id in s.batcher.requests ensures Story(w', id) && Batched(w', news, b1.running, id) {
      ScheduledStory(w, w', b1, news, id);
    }
  }

  lemma NewsApart(b: Batcher, b': Batcher, news: seq<nat>)
    requires BatcherOk(b) && BatcherOk(b') && Admitted(b, b', news)
    ensures Apart(news, b.running)
  {
    assert b'.running == b.running + news;
    assert forall i :: 0 <= i < |news| ==> b'.running[|b.running| + i] == news[i];
  }

  lemma ScheduledStory(w: World, w': World, b1: Batcher, news: seq<nat>, id: nat)
    requires id in w.r.batcher.requests && Story(w, id) && Placed(w, id)
    requires w' == w.(r := w.r.(batcher := w'.r.batcher))
    requires b1.requests == w.r.batcher.requests && b1.waiting == w.r.batcher.waiting
    requires id in b1.running <==> id in w.r.batcher.running && b1.requests[id].state != Finished
    requires id in w.r.batcher.known && b1.requests[id].state != Finished ==> id in b1.known
    requires id in b1.waiting ==> id !in b1.running
    requires Admitted(b1, w'.r.batcher, news)
    ensures Story(w', id) && Batched(w', news, b1.running, id)
  {
    StateIrrelevant(w.r.vocab, w.r.eos, id, b1.requests[id], Running);
    assert id in w'.r.batcher.running <==> id in b1.running || id in news;
    hide Tokens, Ended;
  }

  /** A cancellation between the decision and the filter keeps the batch in order. */
  lemma CancelMid(w: World, p: seq<nat>, d: seq<nat>, id: nat)
    requires MidOk(w, p, d)
    ensures MidOk(w.(r := CancelRequest(w.r, id)), p, d)
  {
    CancelOk(w.r.batcher, id);
    var w' := w.(r := CancelRequest(w.r, id));
    CancelEffect(w.r.batcher, id);
    hide BatcherOk, Apart, Cancel, CancelRequest;
    forall x | x in w'.r.batcher.requests ensures Story(w', x) && Batched(w', p, d, x) {
      assert Story(w, x) && Batched(w, p, d, x);
      StateIrrelevant(w.r.vocab, w.r.eos, x, w.r.batcher.requests[x], Finished);
    }
  }

  lemma CancelEffect(b: Batcher, id: nat)
    requires BatcherShape(b)
    ensures var b' := Cancel(b, id).1;
      && b'.requests.Keys == b.requests.Keys && b'.waiting == b.waiting
      && b'.maxSeqs == b.maxSeqs && b'.budget == b.budget
      && (forall x :: x in b.requests && (x != id || id !in b.known) ==> b'.requests[x] == b.requests[x])
      && (id in b.known ==> b'.requests[id] == b.requests[id].(state := Finished))
      && (forall x :: x in b'.running <==> x in b.running && (x != id || id !in b.known))
      && b'.known == b.known - {id}
  {
    DropMembers(b.running, {id});
  }

  lemma {:induction false} CancelAllMid(w: World, p: seq<nat>, d: seq<nat>, ids: seq<nat>)
    requires MidOk(w, p, d)
    ensures MidOk(w.(r := CancelAll(w.r, ids)), p, d)
  {
    hide Story, Batched, Apart, Listed, CancelRequest;
    if ids == [] {
      assert w.(r := CancelAll(w.r, ids)) == w;
    } else {
      var u := ids[..|ids| - 1];
      CancelAllMid(w, p, d, u);
      CancelAllKeys(w.r, u);
      var w1 := w.(r := CancelAll(w.r, u));
      CancelMid(w1, p, d, ids[|ids| - 1]);
      assert w1.(r := CancelRequest(w1.r, ids[|ids| - 1])) == w.(r := CancelAll(w.r, ids));
    }
  }

  /** Marking requests that are finished already changes nothing. */
  lemma {:induction false} FinishNothing(b: Batcher, ids: seq<nat>)
    requires b.known <= b.requests.Keys
    requires forall i :: 0 <= i < |ids| ==> ids[i] in b.requests && b.requests[ids[i]].state == Finished
    ensures Finish(b, ids) == b
  {
    if ids != [] {
      FinishNothing(b, ids[..|ids| - 1]);
      var id := ids[|ids| - 1];
      assert b.requests[id].(state := Finished) == b.requests[id];
      assert SetState(b.requests, id, Finished) == b.requests;
    }
  }

  lemma {:induction false} FinalIdsFrom(events: seq<Event>)
    ensures forall id :: id in FinalIds(events) <==>
      exists i :: 0 <= i < |events| && events[i].id == id && events[i].isFinal
  {
    if events != [] {
      var u, e := events[..|events| - 1], events[|events| - 1];
      FinalIdsFrom(u);
      assert forall i :: 0 <= i < |u| ==> u[i] == events[i];
    }
  }

  lemma {:induction false} EventInHistory(events: seq<Event>, i: nat)
    requires i < |events|
    ensures events[i] in EventsOf(events, events[i].id)
  {
    if i < |events| - 1 {
      EventInHistory(events[..|events| - 1], i);
    }
  }

  /** Both loops together: one event for each request of the batch. */
  lemma BatchEach(vocab: Vocab, eos: int, requests: Store, p: seq<nat>, d: seq<nat>, id: nat)
    requires Listed(requests, p) && Listed(requests, d) && Apart(p, d) && id in requests
    requires forall id :: id in requests ==> RequestOk(requests[id])
    ensures var g1 := GenerateAll(vocab, eos, Generated(requests, []), p, true);
      var g2 := GenerateAll(vocab, eos, g1, d, false);
      if id in p || id in d then
        && g2.requests[id] == Generate(vocab, eos, id, requests[id], id in p).0
        && EventsOf(g2.events, id) == [Generate(vocab, eos, id, requests[id], id in p).1]
      else
        g2.requests[id] == requests[id] && EventsOf(g2.events, id) == []
  {
    hide Generate, RequestOk;
    GenerateAllEach(vocab, eos, Generated(requests, []), p, true, id);
    var g1 := GenerateAll(vocab, eos, Generated(requests, []), p, true);
    GenerateAllEach(vocab, eos, g1, d, false, id);
  }

  /** The events of the batch and what the requests become, for one request. */
  lemma ExecutedStory(w: World, p: seq<nat>, d: seq<nat>, id: nat, requests: Store, events: seq<Event>, w': World)
    requires id in w.r.batcher.requests && id in requests && Story(w, id) && Batched(w, p, d, id)
    requires var active := (id in p || id in d) && id !in w.r.cancelled;
      && (active ==> requests[id] == Generate(w.r.vocab, w.r.eos, id, w.r.batcher.requests[id], id in p).0
                     && EventsOf(events, id) == [Generate(w.r.vocab, w.r.eos, id, w.r.batcher.requests[id], id in p).1])
      && (!active ==> requests[id] == w.r.batcher.requests[id] && EventsOf(events, id) == [])
    requires id in p ==> id !in d
    requires w' == World(w'.r, w.hist + events, w.stopped)
    requires w'.r == w.r.(batcher := w.r.batcher.(requests := requests), queue := w'.r.queue)
    ensures Story(w', id) && Placed(w', id)
    ensures (id in p || id in d) && id !in w.r.cancelled ==>
      (Generate(w.r.vocab, w.r.eos, id, w.r.batcher.requests[id], id in p).1.isFinal ==> requests[id].state == Finished)
  {
    var q := w.r.batcher.requests[id];
    EventsOfConcat(w.hist, events, id);
    if (id in p || id in d) && id !in w.r.cancelled {
      GenerateTokens(w.r.vocab, w.r.eos, id, q, id in p);
    }
    hide Tokens, Generate, Script;
  }

  lemma {:induction false} GeneratedIds(vocab: Vocab, eos: int, g: Generated, ids: seq<nat>, prefill: bool)
    requires Listed(g.requests, ids)
    requires forall id :: id in g.requests ==> RequestOk(g.requests[id])
    ensures forall e :: e in GenerateAll(vocab, eos, g, ids, prefill).events ==> e in g.events || e.id in ids
  {
    if ids != [] {
      GeneratedIds(vocab, eos, g, ids[..|ids| - 1], prefill);
    }
  }

  lemma DropApart(p: seq<nat>, d: seq<nat>, c: set<nat>)
    requires Apart(p, d)
    ensures Apart(Drop(p, c), Drop(d, c))
    ensures forall id :: id in Drop(p, c) <==> id in p && id !in c
    ensures forall id :: id in Drop(d, c) <==> id in d && id !in c
  {
    DropMembers(p, c);
    DropMembers(d, c);
    DropNoDup(p, c);
    DropNoDup(d, c);
  }

  /** Every final event belongs to a request that is finished. */
  lemma FinalsAreFinished(w: World, p: seq<nat>, d: seq<nat>, g: Generated)
    requires Listed(w.r.batcher.requests, p) && Listed(w.r.batcher.requests, d) && Apart(p, d)
    requires forall id :: id in w.r.batcher.requests ==> RequestOk(w.r.batcher.requests[id])
    requires var g1 := GenerateAll(w.r.vocab, w.r.eos, Generated(w.r.batcher.requests, []), p, true);
      g == GenerateAll(w.r.vocab, w.r.eos, g1, d, false)
    ensures forall i :: 0 <= i < |FinalIds(g.events)| ==>
      FinalIds(g.events)[i] in g.requests && g.requests[FinalIds(g.events)[i]].state == Finished
  {
    var finals := FinalIds(g.events);
    FinalIdsFrom(g.events);
    GeneratedIds(w.r.vocab, w.r.eos, Generated(w.r.batcher.requests, []), p, true);
    var g1 := GenerateAll(w.r.vocab, w.r.eos, Generated(w.r.batcher.requests, []), p, true);
    GeneratedIds(w.r.vocab, w.r.eos, g1, d, false);
    forall i | 0 <= i < |finals|
      ensures finals[i] in g.requests && g.requests[finals[i]].state == Finished
    {
      assert finals[i] in finals;
      var k :| 0 <= k < |g.events| && g.events[k].id == finals[i] && g.events[k].isFinal;
      assert g.events[k] in g.events;
      ListedIn(w.r.batcher.requests, p);
      ListedIn(w.r.batcher.requests, d);
      EventInHistory(g.events, k);
      BatchEach(w.r.vocab, w.r.eos, w.r.batcher.requests, p, d, finals[i]);
    }
  }

  lemma ListedIn(requests: Store, s: seq<nat>)
    requires Listed(requests, s)
    ensures forall id :: id in s ==> id in requests
  {
  }

  function After(w: World, r': Runner): World {
    World(r', w.hist + if |r'.queue| >= |w.r.queue| then r'.queue[|w.r.queue|..] else [], w.stopped)
  }

  lemma ExecuteEffect(w: World, p: seq<nat>, d: seq<nat>) returns (requests: Store, events: seq<Event>)
    requires MidOk(w, p, d)
    ensures var r' := Execute(w.r, p, d);
      && r' == w.r.(batcher := w.r.batcher.(requests := requests), queue := w.r.queue + events)
      && BatcherOk(r'.batcher) && requests.Keys == w.r.batcher.requests.Keys
    ensures forall id :: id in w.r.batcher.requests ==>
      var active := (id in p || id in d) && id !in w.r.cancelled; var q := w.r.batcher.requests[id];
      && (active ==> RequestOk(q) && requests[id] == Generate(w.r.vocab, w.r.eos, id, q, id in p).0
                     && EventsOf(events, id) == [Generate(w.r.vocab, w.r.eos, id, q, id in p).1])
      && (!active ==> requests[id] == q && EventsOf(events, id) == [])
    ensures |events| == |Drop(p, w.r.cancelled)| + |Drop(d, w.r.cancelled)|
    ensures forall i :: 0 <= i < |events| ==> events[i].id in requests
  {
    hide Story, Batched, Apart, Generate;
    var c, store := w.r.cancelled, w.r.batcher.requests;
    var p', d' := Drop(p, c), Drop(d, c);
    DropApart(p, d, c);
    DropListed(store, p, c);
    DropListed(store, d, c);
    if |p'| + |d'| == 0 {
      requests, events := store, [];
      assert w.r.queue + [] == w.r.queue;
    } else {
      var g1 := GenerateAll(w.r.vocab, w.r.eos, Generated(store, []), p', true);
      var g2 := GenerateAll(w.r.vocab, w.r.eos, g1, d', false);
      requests, events := g2.requests, g2.events;
      FinalsAreFinished(w, p', d', g2);
      FinishNothing(w.r.batcher.(requests := requests), FinalIds(events));
      forall id | id in store
        ensures var active := (id in p || id in d) && id !in c; var q := store[id];
          && (active ==> RequestOk(q) && requests[id] == Generate(w.r.vocab, w.r.eos, id, q, id in p).0
                         && EventsOf(events, id) == [Generate(w.r.vocab, w.r.eos, id, q, id in p).1])
          && (!active ==> requests[id] == q && EventsOf(events, id) == [])
      {
        BatchEach(w.r.vocab, w.r.eos, store, p', d', id);
      }
      GeneratedIds(w.r.vocab, w.r.eos, Generated(store, []), p', true);
      GeneratedIds(w.r.vocab, w.r.eos, g1, d', false);
      forall i | 0 <= i < |events| ensures events[i].id in requests {
        assert events[i] in events;
        ListedIn(store, p');
        ListedIn(store, d');
      }
      EventCount(w.r.vocab, w.r.eos, Generated(store, []), p', true);
      EventCount(w.r.vocab, w.r.eos, g1, d', false);
    }
  }

  lemma {:induction false} EventCount(vocab: Vocab, eos: int, g: Generated, ids: seq<nat>, prefill: bool)
    requires Listed(g.requests, ids)
    requires forall id :: id in g.requests ==> RequestOk(g.requests[id])
    ensures |GenerateAll(vocab, eos, g, ids, prefill).events| == |g.events| + |ids|
  {
    if ids != [] {
      EventCount(vocab, eos, g, ids[..|ids| - 1], prefill);
    }
  }

  lemma ExecuteOk(w: World, p: seq<nat>, d: seq<nat>)
    requires MidOk(w, p, d)
    ensures Ok(After(w, Execute(w.r, p, d)))
  {
    var requests, events := ExecuteEffect(w, p, d);
    hide BatcherOk, Listed, Execute;
    var w' := After(w, Execute(w.r, p, d));
    assert w'.r.queue[|w.r.queue|..] == events;
    forall id | id in w'.r.batcher.requests ensures Story(w', id) && Placed(w', id) {
      ExecutedStory(w, p, d, id, requests, events, w');
    }
  }

  /** A step keeps the invariant, whatever is cancelled while it is under way. */
  lemma StepOk(w: World, mid: seq<nat>)
    requires Ok(w)
    ensures Ok(After(w, Step(w.r, mid)))
  {
    hide Ok, MidOk, BatcherOk, Listed;
    OkShape(w);
    DecidedMid(w, mid);
    var s := Schedule(w.r.batcher);
    ExecuteOk(Decided(w, mid), s.prefill, s.decode);
    assert After(Decided(w, mid), Execute(Decided(w, mid).r, s.prefill, s.decode)) == After(w, Step(w.r, mid));
  }

  lemma ScheduleKeys(b: Batcher)
    requires BatcherOk(b)
    ensures Schedule(b).batcher.requests.Keys == b.requests.Keys
  {
    var news := ScheduleKeeps(b);
  }

  lemma {:induction false} CancelAllQueue(r: Runner, ids: seq<nat>)
    requires BatcherShape(r.batcher)
    ensures CancelAll(r, ids).queue == r.queue
  {
    if ids != [] {
      CancelAllQueue(r, ids[..|ids| - 1]);
    }
  }

  /** The batch a step decides on, after the cancellations in between. */
  function Decided(w: World, mid: seq<nat>): World
    requires BatcherOk(w.r.batcher)
  {
    ScheduleShape(w.r.batcher);
    w.(r := CancelAll(w.r.(batcher := Schedule(w.r.batcher).batcher), mid))
  }

  lemma DecidedMid(w: World, mid: seq<nat>)
    requires Ok(w)
    ensures var s := Schedule(w.r.batcher); var w2 := Decided(w, mid);
      && MidOk(w2, s.prefill, s.decode) && w2.r.queue == w.r.queue
      && w2.r.batcher.requests.Keys == w.r.batcher.requests.Keys
      && Step(w.r, mid) == Execute(w2.r, s.prefill, s.decode)
  {
    var s := Schedule(w.r.batcher);
    ScheduleMid(w);
    ScheduleKeys(w.r.batcher);
    var w1 := w.(r := w.r.(batcher := s.batcher));
    CancelAllMid(w1, s.prefill, s.decode, mid);
    CancelAllKeys(w1.r, mid);
    CancelAllQueue(w1.r, mid);
  }

  lemma StepEvents(w: World, mid: seq<nat>)
    requires Ok(w)
    requires forall i :: 0 <= i < |w.hist| ==> w.hist[i].id in w.r.batcher.requests
    ensures var w' := After(w, Step(w.r, mid));
      forall i :: 0 <= i < |w'.hist| ==> w'.hist[i].id in w'.r.batcher.requests
  {
    hide Ok, MidOk, BatcherOk, Listed;
    OkShape(w);
    DecidedMid(w, mid);
    var s := Schedule(w.r.batcher);
    var requests, events := ExecuteEffect(Decided(w, mid), s.prefill, s.decode);
    hide Execute, Step, Decided, Schedule;
    assert After(w, Step(w.r, mid)).hist == w.hist + events;
  }

  lemma OkShape(w: World)
    requires Ok(w)
    ensures BatcherOk(w.r.batcher)
  {
  }
}
