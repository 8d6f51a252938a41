/** The continuous batcher as a value: requests, the waiting pool, the running list,
    and one scheduling step. A shared request object is an entry of the request
    store, so every list that names its id sees the same record. */
module Batching {
  import opened Sums

  datatype RequestState = Waiting | Running | Finished | Preempted

  datatype Request = Request(
    prompt: seq<int>, generated: seq<int>, maxNewTokens: int,
    priority: int, arrival: nat, state: RequestState)

  type Store = map<nat, Request>

  /** known: the keys of the request map. */
  datatype Batcher = Batcher(
    maxSeqs: nat, budget: nat,
    requests: Store, waiting: seq<nat>, running: seq<nat>, known: set<nat>)

  datatype Scheduled = Scheduled(batcher: Batcher, prefill: seq<nat>, decode: seq<nat>, tokens: nat, preempted: nat)

  // ----- Requests -----

  /** A negative limit is a huge one once it is compared as an unsigned number. */
  function Limit(r: Request): (n: nat)
    requires r.maxNewTokens >= -0x1_0000_0000_0000_0000
  {
    if r.maxNewTokens < 0 then r.maxNewTokens + 0x1_0000_0000_0000_0000 else r.maxNewTokens
  }

  ghost predicate RequestOk(r: Request) {
    r.prompt != [] && r.maxNewTokens >= -0x8000_0000
  }

  predicate IsFinished(r: Request)
    requires r.maxNewTokens >= -0x8000_0000
  {
    r.state == Finished || |r.generated| >= Limit(r)
  }

  /** Higher priority first, then earlier arrival. */
  predicate Better(a: Request, b: Request) {
    a.priority > b.priority || (a.priority == b.priority && a.arrival < b.arrival)
  }

  // ----- Structure -----

  ghost predicate Listed(requests: Store, s: seq<nat>) {
    forall i :: 0 <= i < |s| ==> s[i] in requests
  }

  ghost predicate BatcherShape(b: Batcher) {
    && Listed(b.requests, b.waiting) && Listed(b.requests, b.running)
    && b.known <= b.requests.Keys
    && forall id :: id in b.requests ==> RequestOk(b.requests[id])
  }

  /** No id occurs twice in the two lists. */
  ghost predicate Apart(w: seq<nat>, r: seq<nat>) {
    NoDup(w) && NoDup(r) && forall x :: x in w ==> x !in r
  }

  /** No request is listed twice, and the running list fits the seats and the budget. */
  ghost predicate BatcherOk(b: Batcher) {
    && BatcherShape(b)
    && Apart(b.waiting, b.running)
    && |b.running| <= b.maxSeqs && |b.running| <= b.budget
  }

  // ----- Adding, cancelling, finishing -----

  function Add(b: Batcher, id: nat, r: Request): (bool, Batcher) {
    if r.prompt == [] || id in b.known then (false, b)
    else
      var requests := b.requests[id := r.(state := Waiting)];
      (true, b.(requests := requests, known := b.known + {id}, waiting := b.waiting + [id]))
  }

  function SetState(requests: Store, id: nat, s: RequestState): Store
    requires id in requests
  {
    requests[id := requests[id].(state := s)]
  }

  /** remove_if over a list of ids. */
  function Drop(s: seq<nat>, ids: set<nat>): (r: seq<nat>) {
    if s == [] then []
    else Drop(s[..|s| - 1], ids) + if s[|s| - 1] in ids then [] else [s[|s| - 1]]
  }

  function Cancel(b: Batcher, id: nat): (bool, Batcher)
    requires b.known <= b.requests.Keys
  {
    if id !in b.known then (false, b)
    else
      var requests := SetState(b.requests, id, Finished);
      (true, b.(requests := requests, running := Drop(b.running, {id}), known := b.known - {id}))
  }

  /** update_requests_state marks the requests it still knows. */
  function Finish(b: Batcher, ids: seq<nat>): (b': Batcher)
    requires b.known <= b.requests.Keys
    ensures b'.known == b.known && b'.requests.Keys == b.requests.Keys
  {
    if ids == [] then b
    else
      var b1 := Finish(b, ids[..|ids| - 1]);
      var id := ids[|ids| - 1];
      if id in b1.known then b1.(requests := SetState(b1.requests, id, Finished)) else b1
  }

  // ----- Scheduling -----

  predicate Keeps(requests: Store, id: nat)
    requires id in requests && RequestOk(requests[id])
  {
    !IsFinished(requests[id]) && requests[id].state == Running
  }

  /** The requests the filter drops from the first n running ones. */
  function Dropped(b: Batcher, n: nat): (s: set<nat>)
    requires BatcherShape(b) && n <= |b.running|
    ensures forall id :: id in s <==> id in b.running[..n] && !Keeps(b.requests, id)
  {
    if n == 0 then {}
    else Dropped(b, n - 1) + if Keeps(b.requests, b.running[n - 1]) then {} else {b.running[n - 1]}
  }

  function MarkFinished(requests: Store, ids: set<nat>): Store {
    map id | id in requests :: if id in ids then requests[id].(state := Finished) else requests[id]
  }

  /** Step 1: finished requests leave the running list and the request map. */
  function Filter(b: Batcher): (b': Batcher)
    requires BatcherShape(b)
  {
    var d := Dropped(b, |b.running|);
    b.(running := Drop(b.running, d), requests := MarkFinished(b.requests, d), known := b.known - d)
  }

  /** Keeps the list sorted by ascending priority. */
  function Insert(requests: Store, s: seq<nat>, id: nat): (r: seq<nat>)
    requires Listed(requests, s) && id in requests
    ensures Listed(requests, r) && |r| == |s| + 1
  {
    if s == [] || requests[s[|s| - 1]].priority <= requests[id].priority then s + [id]
    else Insert(requests, s[..|s| - 1], id) + [s[|s| - 1]]
  }

  function SortByPriority(requests: Store, s: seq<nat>): (r: seq<nat>)
    requires Listed(requests, s)
    ensures Listed(requests, r) && |r| == |s|
  {
    if s == [] then [] else Insert(requests, SortByPriority(requests, s[..|s| - 1]), s[|s| - 1])
  }

  /** Backpressure: the running request of lowest priority goes back to waiting. */
  function Preempt(b: Batcher): Batcher
    requires BatcherShape(b) && b.running != []
  {
    var s := SortByPriority(b.requests, b.running);
    b.(running := s[1..], requests := SetState(b.requests, s[0], Preempted), waiting := b.waiting + [s[0]])
  }

  /** The request at the top of the priority queue; among equals the earliest entry. */
  function Top(requests: Store, s: seq<nat>): (id: nat)
    requires s != [] && Listed(requests, s)
    ensures id in s && id in requests
    ensures forall i :: 0 <= i < |s| ==> !Better(requests[s[i]], requests[id])
  {
    if |s| == 1 then s[0]
    else
      var t, last := Top(requests, s[..|s| - 1]), s[|s| - 1];
      if Better(requests[last], requests[t]) then last else t
  }

  /** What the admission loop does with the top of the queue. */
  datatype Verdict = Stop | Skip | Seat | Defer

  function Judge(b: Batcher, tokens: nat): Verdict
    requires Listed(b.requests, b.waiting)
  {
    if b.waiting == [] || |b.running| >= b.maxSeqs then Stop
    else
      var r := b.requests[Top(b.requests, b.waiting)];
      if r.state == Finished then Skip
      else if tokens + |r.prompt| <= b.budget then Seat
      else Defer
  }

  /** The batcher after that; a deferred request goes back into the queue. */
  function Apply(b: Batcher, v: Verdict): (b': Batcher)
    requires Listed(b.requests, b.waiting) && (v != Stop ==> b.waiting != [])
    ensures v != Stop ==> |b'.waiting| == |b.waiting| - if v == Defer then 0 else 1
    ensures Listed(b'.requests, b'.waiting)
  {
    if v == Stop then b
    else
      var id := Top(b.requests, b.waiting);
      RestListed(b.requests, b.waiting, id);
      var rest := Without(b.waiting, id);
      match v
      case Skip => b.(waiting := rest)
      case Seat => b.(waiting := rest, requests := SetState(b.requests, id, Running), running := b.running + [id])
      case Defer => b.(waiting := rest + [id])
  }

  /** Step 3: admits waiting requests in order while seats and tokens last. */
  function Admit(b: Batcher, tokens: nat, prefill: seq<nat>): (r: Scheduled)
    requires Listed(b.requests, b.waiting)
    decreases |b.waiting|
  {
    var v := Judge(b, tokens);
    match v
    case Stop => Scheduled(b, prefill, [], tokens, 0)
    case Skip => Admit(Apply(b, v), tokens, prefill)
    case Seat =>
      var id := Top(b.requests, b.waiting);
      Admit(Apply(b, v), tokens + |b.requests[id].prompt|, prefill + [id])
    case Defer => Scheduled(Apply(b, v), prefill, [], tokens, 0)
  }

  lemma RestListed(requests: Store, s: seq<nat>, id: nat)
    requires Listed(requests, s) && id in s
    ensures |Without(s, id)| == |s| - 1
    ensures forall requests': Store :: requests.Keys <= requests'.Keys ==> Listed(requests', Without(s, id))
  {
    var k := WithoutSplice(s, id);
  }

  function Schedule(b: Batcher): (r: Scheduled)
    requires BatcherShape(b)
  {
    var b1 := Filter(b);
    FilterShape(b);
    if |b1.running| <= b.budget then
      Admit(b1, |b1.running|, []).(decode := b1.running)
    else
      PreemptShape(b1);
      Admit(Preempt(b1), b.budget, []).(decode := b1.running[..b.budget], preempted := 1)
  }

  // ----- Lists -----

  lemma {:induction false} DropMembers(s: seq<nat>, ids: set<nat>)
    ensures forall x :: x in Drop(s, ids) <==> x in s && x !in ids
    ensures |Drop(s, ids)| <= |s|
    ensures Drop(s, ids) == s <==> forall x :: x in s ==> x !in ids
  {
    if s != [] {
      var u, x := s[..|s| - 1], s[|s| - 1];
      DropMembers(u, ids);
      assert s == u + [x];
      if x in ids {
        assert |Drop(s, ids)| < |s|;
      }
    }
  }

  lemma {:induction false} DropNoDup(s: seq<nat>, ids: set<nat>)
    requires NoDup(s)
    ensures NoDup(Drop(s, ids))
  {
    if s != [] {
      DropNoDup(s[..|s| - 1], ids);
      DropMembers(s[..|s| - 1], ids);
    }
  }

  lemma FilterShape(b: Batcher)
    requires BatcherShape(b)
    ensures BatcherShape(Filter(b))
    ensures |Filter(b).running| <= |b.running|
  {
    var b', d := Filter(b), Dropped(b, |b.running|);
    DropMembers(b.running, d);
    forall i | 0 <= i < |b'.running| ensures b'.running[i] in b'.requests {
      assert b'.running[i] in b.running;
    }
  }

  lemma PreemptShape(b: Batcher)
    requires BatcherShape(b) && b.running != []
    ensures BatcherShape(Preempt(b))
  {
  }
}
