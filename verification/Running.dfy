/** The token loop: one step asks the batcher for a batch, drops what was cancelled
    in the meantime, generates one token per request and emits the events. */
module Running {
  import opened Batching
  import opened BatchingProofs

  type Vocab = n: nat | n > 0 witness 1

  datatype Event = Event(id: nat, token: int, isFinal: bool)

  /** cancelled: every id ever passed to cancel_request; queue: the stream buffer. */
  datatype Runner = Runner(batcher: Batcher, vocab: Vocab, eos: int, queue: seq<Event>, cancelled: set<nat>)

  // ----- Tokens -----

  /** (token + 1) % vocab, computed on unsigned 64-bit numbers. */
  function Next(vocab: Vocab, token: int): int {
    (token + 1) % 0x1_0000_0000_0000_0000 % vocab
  }

  function LastOf(s: seq<int>): int {
    if s == [] then 0 else s[|s| - 1]
  }

  /** The token a request generates next: prefill looks at the prompt. */
  function Sample(vocab: Vocab, r: Request, prefill: bool): int {
    Next(vocab, if prefill then LastOf(r.prompt) else LastOf(r.generated))
  }

  predicate EndsWith(eos: int, r: Request, token: int, count: nat)
    requires RequestOk(r)
  {
    token == eos || count >= Limit(r)
  }

  /** One token for one request: the new record and its event. */
  function Generate(vocab: Vocab, eos: int, id: nat, r: Request, prefill: bool): (Request, Event)
    requires RequestOk(r)
  {
    var token := Sample(vocab, r, prefill);
    var last := EndsWith(eos, r, token, |r.generated| + 1);
    (r.(generated := r.generated + [token], state := if last then Finished else r.state), Event(id, token, last))
  }

  datatype Generated = Generated(requests: Store, events: seq<Event>)

  /** The prefill loop or the decode loop over a list of requests. */
  function GenerateAll(vocab: Vocab, eos: int, g: Generated, ids: seq<nat>, prefill: bool): (g': Generated)
    requires Listed(g.requests, ids)
    requires forall id :: id in g.requests ==> RequestOk(g.requests[id])
    ensures g'.requests.Keys == g.requests.Keys
    ensures forall id :: id in g'.requests ==> RequestOk(g'.requests[id])
  {
    if ids == [] then g
    else
      var h := GenerateAll(vocab, eos, g, ids[..|ids| - 1], prefill);
      var id := ids[|ids| - 1];
      var (r, e) := Generate(vocab, eos, id, h.requests[id], prefill);
      Generated(h.requests[id := r], h.events + [e])
  }

  // ----- The operations of the runner -----

  function CancelRequest(r: Runner, id: nat): (r': Runner)
    requires BatcherShape(r.batcher)
    ensures BatcherShape(r'.batcher)
  {
    CancelShape(r.batcher, id);
    r.(batcher := Cancel(r.batcher, id).1, cancelled := r.cancelled + {id})
  }

  lemma CancelShape(b: Batcher, id: nat)
    requires BatcherShape(b)
    ensures BatcherShape(Cancel(b, id).1)
  {
    DropMembers(b.running, {id});
    var r := Drop(b.running, {id});
    assert forall i :: 0 <= i < |r| ==> r[i] in b.running;
  }

  function CancelAll(r: Runner, ids: seq<nat>): (r': Runner)
    requires BatcherShape(r.batcher)
    ensures BatcherShape(r'.batcher)
  {
    if ids == [] then r else CancelRequest(CancelAll(r, ids[..|ids| - 1]), ids[|ids| - 1])
  }

  /** The rest of a step, once the batch is decided: filter, generate, emit, finish. */
  function Execute(r: Runner, prefill: seq<nat>, decode: seq<nat>): (r': Runner)
    requires BatcherShape(r.batcher) && Listed(r.batcher.requests, prefill) && Listed(r.batcher.requests, decode)
  {
    var p, d := Drop(prefill, r.cancelled), Drop(decode, r.cancelled);
    DropListed(r.batcher.requests, prefill, r.cancelled);
    DropListed(r.batcher.requests, decode, r.cancelled);
    if |p| + |d| == 0 then r
    else
      var g1 := GenerateAll(r.vocab, r.eos, Generated(r.batcher.requests, []), p, true);
      var g2 := GenerateAll(r.vocab, r.eos, g1, d, false);
      var finished := FinalIds(g2.events);
      r.(batcher := Finish(r.batcher.(requests := g2.requests), finished), queue := r.queue + g2.events)
  }

  function FinalIds(events: seq<Event>): seq<nat> {
    if events == [] then []
    else FinalIds(events[..|events| - 1]) + if events[|events| - 1].isFinal then [events[|events| - 1].id] else []
  }

  lemma DropListed(requests: Store, s: seq<nat>, ids: set<nat>)
    requires Listed(requests, s)
    ensures Listed(requests, Drop(s, ids))
  {
    DropMembers(s, ids);
    var r := Drop(s, ids);
    assert forall i :: 0 <= i < |r| ==> r[i] in s;
  }

  lemma ScheduleShape(b: Batcher)
    requires BatcherOk(b)
    ensures var s := Schedule(b);
      BatcherShape(s.batcher) && Listed(s.batcher.requests, s.prefill) && Listed(s.batcher.requests, s.decode)
  {
    var news := ScheduleKeeps(b);
    FilterShape(b);
  }

  lemma {:induction false} CancelAllKeys(r: Runner, ids: seq<nat>)
    requires BatcherShape(r.batcher)
    ensures CancelAll(r, ids).batcher.requests.Keys == r.batcher.requests.Keys
  {
    if ids != [] {
      CancelAllKeys(r, ids[..|ids| - 1]);
    }
  }

  /** ModelRunner::step; mid are the ids other threads cancel after the batch has
      been decided and before it is filtered. */
  function Step(r: Runner, mid: seq<nat>): (r': Runner)
    requires BatcherOk(r.batcher)
  {
    var s := Schedule(r.batcher);
    ScheduleShape(r.batcher);
    var r1 := r.(batcher := s.batcher);
    CancelAllKeys(r1, mid);
    Execute(CancelAll(r1, mid), s.prefill, s.decode)
  }
}
