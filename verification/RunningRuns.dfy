/** Whole runs of the runner: the stream protocol of every request, and the drain
    of a closed system within a bound computed from its state. */
module RunningRuns {
  import opened Arithmetic
  import opened Sums
  import opened Batching
  import opened BatchingProofs
  import opened Running
  import opened RunningProofs

  /** DoFinish is update_requests_state called from outside; mid are the requests
      other threads cancel while a step is under way. */
  datatype RunOp =
    | Submit(id: nat, prompt: seq<int>, maxNewTokens: int, priority: int, arrival: nat)
    | CancelOne(id: nat)
    | FinishMany(ids: seq<nat>)
    | StepOnce(mid: seq<nat>)
    | PopAll

  /** Request ids are new, not even cancelled before, and limits are 32-bit numbers. */
  ghost predicate Allowed(w: World, op: RunOp) {
    match op
    case Submit(id, _, maxNewTokens, _, _) => Unused(w, id) && maxNewTokens >= -0x8000_0000
    case _ => true
  }

  predicate Unused(w: World, id: nat) {
    id !in w.r.batcher.requests && id !in w.r.cancelled
  }

  function Do(w: World, op: RunOp): World
    requires BatcherOk(w.r.batcher)
  {
    match op
    case Submit(id, prompt, maxNewTokens, priority, arrival) =>
      w.(r := w.r.(batcher := Add(w.r.batcher, id, Request(prompt, [], maxNewTokens, priority, arrival, Waiting)).1))
    case CancelOne(id) => w.(r := CancelRequest(w.r, id))
    case FinishMany(ids) =>
      w.(r := w.r.(batcher := Finish(w.r.batcher, ids)), stopped := w.stopped + set id | id in ids)
    case StepOnce(mid) => After(w, Step(w.r, mid))
    case PopAll => w.(r := w.r.(queue := []))
  }

  /** The invariant, and no event without a request. */
  ghost predicate RunOk(w: World) {
    Ok(w) && forall i :: 0 <= i < |w.hist| ==> w.hist[i].id in w.r.batcher.requests
  }

  lemma {:induction false} NoEvents(hist: seq<Event>, id: nat)
    requires forall i :: 0 <= i < |hist| ==> hist[i].id != id
    ensures EventsOf(hist, id) == []
  {
    if hist != [] {
      NoEvents(hist[..|hist| - 1], id);
    }
  }

  lemma SubmitOk(w: World, id: nat, r: Request)
    requires RunOk(w) && Unused(w, id) && r.maxNewTokens >= -0x8000_0000 && r.generated == []
    ensures RunOk(w.(r := w.r.(batcher := Add(w.r.batcher, id, r).1)))
  {
    if r.prompt != [] {
      var w' := w.(r := w.r.(batcher := Add(w.r.batcher, id, r).1));
      AddOk(w.r.batcher, id, r);
      NoEvents(w.hist, id);
      hide BatcherOk;
      forall x | x in w'.r.batcher.requests ensures Story(w', x) && Placed(w', x) {
        if x != id {
          assert Story(w, x) && Placed(w, x);
        }
      }
    }
  }

  lemma CancelRunOk(w: World, id: nat)
    requires RunOk(w)
    ensures RunOk(w.(r := CancelRequest(w.r, id)))
  {
    CancelOk(w.r.batcher, id);
    var w' := w.(r := CancelRequest(w.r, id));
    CancelEffect(w.r.batcher, id);
    hide BatcherOk, Cancel, CancelRequest;
    forall x | x in w'.r.batcher.requests ensures Story(w', x) && Placed(w', x) {
      assert Story(w, x) && Placed(w, x);
      StateIrrelevant(w.r.vocab, w.r.eos, x, w.r.batcher.requests[x], Finished);
    }
  }

  lemma {:induction false} FinishEffect(b: Batcher, ids: seq<nat>)
    requires b.known <= b.requests.Keys
    ensures var b' := Finish(b, ids);
      && b' == b.(requests := b'.requests)
      && forall x :: x in b.requests ==>
           b'.requests[x] == b.requests[x] || (x in ids && b'.requests[x] == b.requests[x].(state := Finished))
  {
    if ids != [] {
      FinishEffect(b, ids[..|ids| - 1]);
    }
  }

  lemma FinishRunOk(w: World, ids: seq<nat>)
    requires RunOk(w)
    ensures RunOk(w.(r := w.r.(batcher := Finish(w.r.batcher, ids)), stopped := w.stopped + set id | id in ids))
  {
    var w' := w.(r := w.r.(batcher := Finish(w.r.batcher, ids)), stopped := w.stopped + set id | id in ids);
    FinishOk(w.r.batcher, ids);
    FinishEffect(w.r.batcher, ids);
    hide BatcherOk, Finish;
    forall x | x in w'.r.batcher.requests ensures Story(w', x) && Placed(w', x) {
      assert Story(w, x) && Placed(w, x);
      StateIrrelevant(w.r.vocab, w.r.eos, x, w.r.batcher.requests[x], Finished);
    }
  }

  lemma PopOk(w: World)
    requires RunOk(w)
    ensures RunOk(w.(r := w.r.(queue := [])))
  {
    var w' := w.(r := w.r.(queue := []));
    forall x | x in w'.r.batcher.requests ensures Story(w', x) && Placed(w', x) {
      assert Story(w, x) && Placed(w, x);
    }
  }

  lemma StepRunOk(w: World, mid: seq<nat>)
    requires RunOk(w)
    ensures RunOk(After(w, Step(w.r, mid)))
  {
    StepOk(w, mid);
    StepEvents(w, mid);
  }

  lemma DoOk(w: World, op: RunOp)
    requires RunOk(w) && Allowed(w, op)
    ensures RunOk(Do(w, op))
  {
    hide RunOk;
    match op
    case Submit(id, prompt, maxNewTokens, priority, arrival) =>
      SubmitOk(w, id, Request(prompt, [], maxNewTokens, priority, arrival, Waiting));
    case CancelOne(id) => CancelRunOk(w, id);
    case FinishMany(ids) => FinishRunOk(w, ids);
    case StepOnce(mid) => StepRunOk(w, mid);
    case PopAll => PopOk(w);
  }

  // ----- Runs -----

  function Start(maxSeqs: nat, budget: nat, vocab: Vocab, eos: int): World {
    World(Runner(Batcher(maxSeqs, budget, map[], [], [], {}), vocab, eos, [], {}), [], {})
  }

  /** w is reached from w0 by allowed operations. */
  ghost predicate Reaches(w0: World, ops: seq<RunOp>, w: World) {
    if ops == [] then w == w0
    else
      var u, op := ops[..|ops| - 1], ops[|ops| - 1];
      exists w1 :: Reaches(w0, u, w1) && Leads(w1, op, w)
  }

  ghost predicate Leads(w: World, op: RunOp, w': World) {
    BatcherOk(w.r.batcher) && Allowed(w, op) && w' == Do(w, op)
  }

  lemma {:induction false} ReachesOk(w0: World, ops: seq<RunOp>, w: World)
    requires RunOk(w0) && Reaches(w0, ops, w)
    ensures RunOk(w)
  {
    hide RunOk;
    if ops != [] {
      var w1 :| Reaches(w0, ops[..|ops| - 1], w1) && Leads(w1, ops[|ops| - 1], w);
      ReachesOk(w0, ops[..|ops| - 1], w1);
      DoOk(w1, ops[|ops| - 1]);
    }
  }

  lemma StartOk(maxSeqs: nat, budget: nat, vocab: Vocab, eos: int)
    ensures RunOk(Start(maxSeqs, budget, vocab, eos))
  {
  }

  /** In every run the events of a request are its tokens in order, each determined
      by the prompt; only the last can be final, and it is exactly when it ends the
      request. A request that finished without being cancelled or stopped from
      outside has its final event. */
  lemma StreamProtocol(maxSeqs: nat, budget: nat, vocab: Vocab, eos: int, ops: seq<RunOp>, w: World, id: nat)
    requires Reaches(Start(maxSeqs, budget, vocab, eos), ops, w) && id in w.r.batcher.requests
    ensures var r := w.r.batcher.requests[id]; var e := EventsOf(w.hist, id);
      && RequestOk(r) && |e| == |r.generated|
      && (forall i :: 0 <= i < |e| ==>
            var t := TokenAt(w.r.vocab, r.prompt, i); e[i] == Event(id, t, EndsWith(w.r.eos, r, t, i + 1)))
      && (forall i :: 0 <= i < |e| - 1 ==> !e[i].isFinal)
      && (r.state != Finished && e != [] ==> !e[|e| - 1].isFinal)
      && (r.state == Finished && id !in w.r.cancelled && id !in w.stopped ==> e != [] && e[|e| - 1].isFinal)
  {
    hide Reaches, BatcherOk, Placed, Story, EndsWith, TokenAt;
    StartOk(maxSeqs, budget, vocab, eos);
    ReachesOk(Start(maxSeqs, budget, vocab, eos), ops, w);
    StoryEvents(w, id);
  }

  /** The most tokens a request gets: at least one, and a negative limit is one of 2^64
      less its amount. */
  function MostTokens(r: Request): int {
    if r.maxNewTokens < 0 then 18446744073709551616 + r.maxNewTokens
    else if r.maxNewTokens == 0 then 1
    else r.maxNewTokens
  }

  /** A request that finished by itself has emitted exactly the smaller of its limit
      and the number of tokens up to the first end of sequence. */
  lemma FinishedCount(maxSeqs: nat, budget: nat, vocab: Vocab, eos: int, ops: seq<RunOp>, w: World, id: nat)
    requires Reaches(Start(maxSeqs, budget, vocab, eos), ops, w) && id in w.r.batcher.requests
    requires var r := w.r.batcher.requests[id];
      r.state == Finished && id !in w.r.cancelled && id !in w.stopped
    ensures var r := w.r.batcher.requests[id]; var n := |EventsOf(w.hist, id)|;
      && 1 <= n <= MostTokens(r)
      && (n < MostTokens(r) ==> TokenAt(w.r.vocab, r.prompt, n - 1) == w.r.eos)
      && (forall i: nat :: i < n - 1 ==> TokenAt(w.r.vocab, r.prompt, i) != w.r.eos)
  {
    hide Reaches, TokenAt, EventsOf, EndsWith, BatcherOk, RequestOk;
    StreamProtocol(maxSeqs, budget, vocab, eos, ops, w, id);
    CountToEnd(w.r.vocab, w.r.eos, w.r.batcher.requests[id], EventsOf(w.hist, id), id);
  }

  lemma CountToEnd(vocab: Vocab, eos: int, r: Request, e: seq<Event>, id: nat)
    requires RequestOk(r) && e != [] && e[|e| - 1].isFinal
    requires forall i :: 0 <= i < |e| ==>
      e[i] == Event(id, TokenAt(vocab, r.prompt, i), EndsWith(eos, r, TokenAt(vocab, r.prompt, i), i + 1))
    requires forall i :: 0 <= i < |e| - 1 ==> !e[i].isFinal
    ensures |e| <= MostTokens(r)
    ensures |e| < MostTokens(r) ==> TokenAt(vocab, r.prompt, |e| - 1) == eos
    ensures forall i: nat :: i < |e| - 1 ==> TokenAt(vocab, r.prompt, i) != eos
  {
    hide TokenAt;
    forall i: nat | i < |e| - 1
      ensures TokenAt(vocab, r.prompt, i) != eos && i + 1 < MostTokens(r)
    {
      assert !e[i].isFinal;
    }
    if |e| > 1 {
      assert !e[|e| - 2].isFinal;
    }
  }

  lemma StoryEvents(w: World, id: nat)
    requires Story(w, id)
    ensures var r := w.r.batcher.requests[id]; var e := EventsOf(w.hist, id);
      && RequestOk(r) && |e| == |r.generated|
      && (forall i :: 0 <= i < |e| ==>
            var t := TokenAt(w.r.vocab, r.prompt, i); e[i] == Event(id, t, EndsWith(w.r.eos, r, t, i + 1)))
      && (forall i :: 0 <= i < |e| - 1 ==> !e[i].isFinal)
      && (r.state != Finished && e != [] ==> !e[|e| - 1].isFinal)
      && (r.state == Finished && id !in w.r.cancelled && id !in w.stopped ==> e != [] && e[|e| - 1].isFinal)
  {
    hide EndsWith, TokenAt;
  }

  /** The i-th generated token is (last prompt token + 1 + i) mod vocab. */
  lemma {:induction false} TokenClosedForm(vocab: Vocab, prompt: seq<int>, i: nat)
    requires 0 <= LastOf(prompt) < 0x8000_0000 && vocab <= 0x8000_0000
    ensures TokenAt(vocab, prompt, i) == (LastOf(prompt) + 1 + i) % vocab
  {
    hide Next;
    if i == 0 {
      NextSmall(vocab, LastOf(prompt));
    } else {
      TokenClosedForm(vocab, prompt, i - 1);
      NextMod(vocab, LastOf(prompt) + i);
    }
  }

  lemma NextSmall(vocab: Vocab, t: int)
    requires 0 <= t < 0x8000_0000
    ensures Next(vocab, t) == (t + 1) % vocab
  {
  }

  /** A negative token is taken as an unsigned number of 64 bits. */
  lemma NextNegative(vocab: Vocab, t: int)
    requires -0x8000_0000 <= t < 0
    ensures Next(vocab, t) == if t == -1 then 0 else (18446744073709551616 + (t + 1)) % vocab
  {
    DivModUnique(0, vocab, 0, 0);
  }

  lemma NextMod(vocab: Vocab, a: nat)
    requires vocab <= 0x8000_0000
    ensures Next(vocab, a % vocab) == (a + 1) % vocab
  {
    var q, r := a / vocab, a % vocab;
    NextSmall(vocab, r);
    assert a == q * vocab + r;
    if r + 1 < vocab {
      DivModUnique(a + 1, vocab, q, r + 1);
      DivModUnique(r + 1, vocab, 0, r + 1);
    } else {
      assert a + 1 == (q + 1) * vocab + 0;
      DivModUnique(a + 1, vocab, q + 1, 0);
      DivModUnique(vocab, vocab, 1, 0);
    }
  }

  // ----- Draining a closed system -----

  function LiveIds(b: Batcher): set<nat> {
    (set id | id in b.waiting) + (set id | id in b.running)
  }

  /** How many tokens a request may still generate. */
  function Left(r: Request): nat
    requires RequestOk(r)
  {
    if r.state == Finished then 0
    else if r.generated == [] then (if Limit(r) > 1 then Limit(r) else 1)
    else if |r.generated| < Limit(r) then Limit(r) - |r.generated|
    else 0
  }

  ghost function Weights(b: Batcher): map<nat, nat>
    requires BatcherShape(b)
  {
    map id | id in LiveIds(b) && id in b.requests :: 1 + Left(b.requests[id])
  }

  /** Tokens that remain, plus one for every waiting or running entry. */
  ghost function Measure(b: Batcher): nat
    requires BatcherShape(b)
  {
    Total(Weights(b))
  }

  /** Nothing grows, and some entry leaves or loses a token. */
  ghost predicate Shrinks(b: Batcher, b': Batcher) {
    && BatcherShape(b) && BatcherShape(b')
    && LiveIds(b') <= LiveIds(b) && LiveIds(b) <= b.requests.Keys && b'.requests.Keys == b.requests.Keys
    && (forall id :: id in LiveIds(b') ==> Left(b'.requests[id]) <= Left(b.requests[id]))
    && exists id :: id in LiveIds(b) && (id in LiveIds(b') ==> Left(b'.requests[id]) < Left(b.requests[id]))
  }

  lemma ShrinksMeasure(b: Batcher, b': Batcher)
    requires Shrinks(b, b')
    ensures Measure(b') < Measure(b)
  {
    var m, m' := Weights(b), Weights(b');
    var id :| id in LiveIds(b) && (id in LiveIds(b') ==> Left(b'.requests[id]) < Left(b.requests[id]));
    assert m'.Keys <= m.Keys && forall k :: k in m' ==> m'[k] <= m[k];
    assert id in m && if id in m' then m'[id] < m[id] else m[id] > 0;
    TotalMonotone(m, m');
  }

  lemma CancelAllEffect(r: Runner, ids: seq<nat>)
    requires BatcherShape(r.batcher)
    ensures var b, b' := r.batcher, CancelAll(r, ids).batcher;
      && b'.requests.Keys == b.requests.Keys && b'.waiting == b.waiting
      && (forall x :: x in b.requests ==>
            b'.requests[x] == b.requests[x] || b'.requests[x] == b.requests[x].(state := Finished))
      && (forall x :: x in b'.running ==> x in b.running)
  {
    if ids != [] {
      CancelAllEffect(r, ids[..|ids| - 1]);
      CancelEffect(CancelAll(r, ids[..|ids| - 1]).batcher, ids[|ids| - 1]);
    }
  }

  /** What a step does to the entries, without the order of the lists. */
  ghost predicate Moves(b: Batcher, b': Batcher, p: seq<nat>) {
    && BatcherShape(b) && BatcherShape(b') && b'.requests.Keys == b.requests.Keys
    && (forall id :: id in b'.waiting ==> id in b.waiting)
    && (forall id :: id in b'.running ==> id in b.running || id in b.waiting)
    && (forall id :: id in b.requests ==> Left(b'.requests[id]) <= Left(b.requests[id]))
  }

  lemma ScheduleMoves(w: World)
    requires Ok(w)
    ensures var s := Schedule(w.r.batcher);
      && Moves(w.r.batcher, s.batcher, s.prefill)
      && (forall id :: id in s.batcher.running ==> id in s.prefill || id in s.decode)
      && (forall id :: id in s.prefill || id in s.decode ==> id in s.batcher.running)
  {
    hide Ok, Story, Schedule, Apart, Listed, Moves, Admitted, Dropped, MarkFinished, RequestOk;
    OkShape(w);
    var b := w.r.batcher;
    FilterChangesNothing(w);
    var news := ScheduleKeeps(b);
    ScheduleShape(b);
    AdmittedMoves(b, Filter(b), Schedule(b).batcher, news);
  }

  lemma AdmittedMoves(b: Batcher, b1: Batcher, b': Batcher, news: seq<nat>)
    requires BatcherShape(b) && BatcherShape(b') && Admitted(b1, b', news)
    requires b1.requests == b.requests && b1.waiting == b.waiting && forall id :: id in b1.running ==> id in b.running
    ensures Moves(b, b', news) && forall id :: id in b'.running <==> id in news || id in b1.running
  {
    assert b'.running == b1.running + news;
  }

  /** A batched request that was not cancelled has a token less to generate. */
  lemma LeftAfter(w: World, p: seq<nat>, d: seq<nat>, id: nat)
    requires id in w.r.batcher.requests && Story(w, id) && Batched(w, p, d, id) && RequestOk(w.r.batcher.requests[id])
    requires id in p || id in d
    ensures var q := w.r.batcher.requests[id]; var g := Generate(w.r.vocab, w.r.eos, id, q, id in p).0;
      && (id in w.r.cancelled ==> q.state == Finished)
      && (id !in w.r.cancelled ==> RequestOk(g) && Left(g) < Left(q))
  {
    if id !in w.r.cancelled {
      GenerateLeft(w.r.vocab, w.r.eos, id, w.r.batcher.requests[id], id in p);
    }
  }

  /** Executing a batch takes a token from every request that is still in it. */
  lemma ExecuteMoves(w: World, p: seq<nat>, d: seq<nat>)
    requires MidOk(w, p, d)
    ensures var b, b' := w.r.batcher, Execute(w.r, p, d).batcher;
      && Moves(b, b', p) && b'.waiting == b.waiting && b'.running == b.running
      && (forall id :: (id in p || id in d) && id in b.running ==>
            Left(b'.requests[id]) < Left(b.requests[id]) || b.requests[id].state == Finished)
  {
    hide Execute, Apart, Story, Batched, Generate, Left, RequestOk;
    var requests, events := ExecuteEffect(w, p, d);
    var b := w.r.batcher;
    forall id | id in b.requests
      ensures Left(requests[id]) <= Left(b.requests[id])
      ensures id in p || id in d ==> Left(requests[id]) < Left(b.requests[id]) || b.requests[id].state == Finished
    {
      if id in p || id in d {
        LeftAfter(w, p, d, id);
      }
    }
  }

  lemma GenerateLeft(vocab: Vocab, eos: int, id: nat, r: Request, prefill: bool)
    requires Tokens(vocab, eos, r) && !Ended(eos, r) && r.state == Running && (prefill <==> r.generated == [])
    ensures RequestOk(Generate(vocab, eos, id, r, prefill).0)
    ensures Left(Generate(vocab, eos, id, r, prefill).0) < Left(r)
  {
  }

  /** The filtered batcher's first verdict makes progress when every prompt fits. */
  lemma AdmitProgress(b: Batcher, tokens: nat)
    requires Admitting(b, tokens) && b.waiting != [] && |b.running| < b.maxSeqs
    requires forall id :: id in b.waiting && id in b.requests ==> tokens + |b.requests[id].prompt| <= b.budget
    ensures var r := Admit(b, tokens, []);
      r.prefill != [] || exists id :: id in b.waiting && id !in r.batcher.waiting
  {
    hide Apply, Admitting, Apart, Top;
    AdmittingListed(b, tokens);
    ApplyAdmitting(b, tokens);
    var id := Top(b.requests, b.waiting);
    if Judge(b, tokens) == Seat {
      assert [] + [id] == [id];
      var r, news := AdmitKeeps(Apply(b, Seat), tokens + |b.requests[id].prompt|, [id]);
    } else {
      assert Judge(b, tokens) == Skip;
      SkipDropsTop(b, tokens);
      var r, news := AdmitKeeps(Apply(b, Skip), tokens, []);
      assert id in b.waiting && id !in r.batcher.waiting;
    }
  }

  lemma SkipDropsTop(b: Batcher, tokens: nat)
    requires Admitting(b, tokens) && Judge(b, tokens) == Skip
    ensures Top(b.requests, b.waiting) !in Apply(b, Skip).waiting
  {
    WithoutNoDup(b.waiting, Top(b.requests, b.waiting));
  }

  /** A closed system: there is a seat, and every waiting prompt fits the budget. */
  ghost predicate Drainable(b: Batcher) {
    && b.maxSeqs >= 1
    && forall id :: id in b.waiting && id in b.requests ==> |b.requests[id].prompt| <= b.budget
  }

  lemma ScheduledRunning(w: World, id: nat)
    requires Ok(w)
    requires var s := Schedule(w.r.batcher); id in s.prefill || id in s.decode
    ensures var b := Schedule(w.r.batcher).batcher; id in b.requests && b.requests[id].state == Running
  {
    var b, s := w.r.batcher, Schedule(w.r.batcher);
    FilterChangesNothing(w);
    ScheduleMid(w);
    var news := ScheduleKeeps(b);
    ScheduleShape(b);
    ListedIn(s.batcher.requests, s.prefill);
    ListedIn(s.batcher.requests, s.decode);
    ScheduledState(w, s.batcher, Filter(b), news, id);
  }

  lemma ScheduledState(w: World, b': Batcher, b1: Batcher, news: seq<nat>, id: nat)
    requires id in news || id in b1.running
    requires b1.requests == w.r.batcher.requests && id in w.r.batcher.requests && id in b'.requests
    requires id in b1.running <==> id in w.r.batcher.running && b1.requests[id].state != Finished
    requires Admitted(b1, b', news) && Placed(w, id)
    ensures b'.requests[id].state == Running
  {
  }

  /** An entry that is in the batch leaves or loses a token by the end of the step. */
  lemma ActiveShrinks(w: World, mid: seq<nat>, id: nat)
    requires Ok(w)
    requires var s := Schedule(w.r.batcher); id in s.prefill || id in s.decode
    ensures var b, b' := w.r.batcher, Step(w.r, mid).batcher;
      && id in b.requests && id in b'.requests && BatcherShape(b) && BatcherShape(b')
      && (id in LiveIds(b') ==> Left(b'.requests[id]) < Left(b.requests[id]))
  {
    hide Ok, MidOk, BatcherShape, Execute, Step, Schedule, Left, Decided;
    OkShape(w);
    var s := Schedule(w.r.batcher);
    ScheduleMid(w);
    ScheduleShape(w.r.batcher);
    ScheduledRunning(w, id);
    ScheduleMoves(w);
    var w1 := w.(r := w.r.(batcher := s.batcher));
    ActiveLeft(w1, s.prefill, s.decode, id);
    CancelAllEffect(w1.r, mid);
    DecidedMid(w, mid);
    var w2 := Decided(w, mid);
    DecidedBatcher(w, mid);
    ActiveLeft(w2, s.prefill, s.decode, id);
    ExecuteMoves(w2, s.prefill, s.decode);
    LeftFinished(w2.r.batcher.requests[id]);
  }

  lemma DecidedBatcher(w: World, mid: seq<nat>)
    requires BatcherOk(w.r.batcher) && BatcherShape(Schedule(w.r.batcher).batcher)
    ensures Decided(w, mid).r == CancelAll(w.r.(batcher := Schedule(w.r.batcher).batcher), mid)
  {
  }

  lemma LeftFinished(r: Request)
    requires RequestOk(r)
    ensures r.state == Finished ==> Left(r) == 0
  {
  }

  lemma ActiveLeft(w: World, p: seq<nat>, d: seq<nat>, id: nat)
    requires MidOk(w, p, d) && (id in p || id in d)
    ensures id in w.r.batcher.requests && id !in w.r.batcher.waiting && BatcherShape(w.r.batcher)
    ensures w.r.batcher.requests[id].state != Finished ==> Left(w.r.batcher.requests[id]) > 0
  {
    ListedIn(w.r.batcher.requests, p);
    ListedIn(w.r.batcher.requests, d);
    assert Story(w, id) && Batched(w, p, d, id);
  }

  /** Every step of a non-empty closed system makes it strictly smaller, whatever
      is cancelled meanwhile. */
  lemma StepShrinks(w: World, mid: seq<nat>)
    requires Ok(w)
    requires Drainable(w.r.batcher) && (w.r.batcher.waiting != [] || w.r.batcher.running != [])
    ensures Shrinks(w.r.batcher, Step(w.r, mid).batcher)
  {
    hide Ok, Step, Schedule, Left, Drainable, LiveIds, BatcherShape, Moves;
    OkShape(w);
    var b, b' := w.r.batcher, Step(w.r, mid).batcher;
    StepMoves(w, mid);
    var s := Schedule(b);
    var id: nat;
    if x :| x in s.prefill || x in s.decode {
      id := x;
      ActiveShrinks(w, mid, id);
      ActiveIsLive(w, id);
    } else {
      NoMember(s.prefill);
      NoMember(s.decode);
      id := NoBatchShrinks(w, mid);
    }
    ShrinksAt(b, b', s.prefill, id);
  }

  lemma ActiveIsLive(w: World, id: nat)
    requires Ok(w)
    requires var s := Schedule(w.r.batcher); id in s.prefill || id in s.decode
    ensures id in LiveIds(w.r.batcher)
  {
    ScheduleMoves(w);
  }

  lemma ShrinksAt(b: Batcher, b': Batcher, p: seq<nat>, id: nat)
    requires Moves(b, b', p) && id in LiveIds(b)
    requires id in LiveIds(b') && id in b.requests && id in b'.requests ==> Left(b'.requests[id]) < Left(b.requests[id])
    ensures Shrinks(b, b')
  {
    LiveListed(b);
    LiveListed(b');
  }

  lemma LiveListed(b: Batcher)
    requires BatcherShape(b)
    ensures LiveIds(b) <= b.requests.Keys
  {
    ListedIn(b.requests, b.waiting);
    ListedIn(b.requests, b.running);
  }

  lemma StepMoves(w: World, mid: seq<nat>)
    requires Ok(w)
    ensures var s, b' := Schedule(w.r.batcher), Step(w.r, mid).batcher;
      && Moves(w.r.batcher, b', s.prefill)
      && b'.waiting == s.batcher.waiting
      && (forall id :: id in b'.running ==> id in s.batcher.running)
  {
    hide Ok, MidOk, BatcherShape, Schedule, Execute, Step, Decided;
    OkShape(w);
    ScheduleShape(w.r.batcher);
    DecidedBatcher(w, mid);
    var s := Schedule(w.r.batcher);
    ScheduleMoves(w);
    var w1 := w.(r := w.r.(batcher := s.batcher));
    CancelAllEffect(w1.r, mid);
    DecidedMid(w, mid);
    ExecuteMoves(Decided(w, mid), s.prefill, s.decode);
  }

  /** An empty batch means that an entry was dropped from one of the lists. */
  lemma NoBatchShrinks(w: World, mid: seq<nat>) returns (id: nat)
    requires Ok(w)
    requires Drainable(w.r.batcher) && (w.r.batcher.waiting != [] || w.r.batcher.running != [])
    requires var s := Schedule(w.r.batcher); s.prefill == [] && s.decode == []
    ensures id in LiveIds(w.r.batcher) && id !in LiveIds(Step(w.r, mid).batcher)
  {
    hide Ok, Step, Left, BatcherShape, Listed;
    OkShape(w);
    var b, b' := w.r.batcher, Step(w.r, mid).batcher;
    StepMoves(w, mid);
    ScheduleMoves(w);
    if b.running != [] {
      id := b.running[0];
      assert id in b.running;
      RunningNotWaiting(b, id);
    } else {
      FilterOk(b);
      FilterChangesNothing(w);
      FilteredProgress(b);
      id :| id in b.waiting && id !in Schedule(b).batcher.waiting;
    }
  }

  lemma RunningNotWaiting(b: Batcher, id: nat)
    requires BatcherOk(b) && id in b.running
    ensures id !in b.waiting
  {
  }

  lemma FilteredProgress(b: Batcher)
    requires BatcherOk(b) && BatcherOk(Filter(b)) && Filter(b).requests == b.requests
    requires Drainable(b) && b.waiting != [] && b.running == [] && Schedule(b).prefill == []
    ensures exists id :: id in b.waiting && id !in Schedule(b).batcher.waiting
  {
    var b1 := Filter(b);
    DropMembers(b.running, Dropped(b, 0));
    assert b1.running == [];
    AdmitProgress(b1, 0);
  }

  // ----- The drain -----

  /** Steps without new requests, with any cancellations in between. */
  ghost predicate Steps(w: World, mids: seq<seq<nat>>, w': World)
    decreases |mids|
  {
    if mids == [] then w' == w
    else
      && BatcherOk(w.r.batcher)
      && Steps(After(w, Step(w.r, mids[0])), mids[1..], w')
  }

  lemma StaysDrainable(w: World, mid: seq<nat>)
    requires Ok(w)
    requires Drainable(w.r.batcher)
    ensures Drainable(Step(w.r, mid).batcher)
    ensures w.r.batcher.waiting == [] && w.r.batcher.running == [] ==>
      Step(w.r, mid).batcher.waiting == [] && Step(w.r, mid).batcher.running == []
  {
    StepMoves(w, mid);
    StepKeepsPrompts(w, mid);
    var b, b' := w.r.batcher, Step(w.r, mid).batcher;
    if b.waiting == [] && b.running == [] {
      assert forall id :: id !in b'.waiting && id !in b'.running;
      NoMember(b'.waiting);
      NoMember(b'.running);
    }
  }

  lemma NoMember(s: seq<nat>)
    requires forall x: nat :: x !in s
    ensures s == []
  {
    HeadMember(s);
  }

  lemma HeadMember(s: seq<nat>)
    ensures s != [] ==> s[0] in s
  {
  }

  lemma StepKeepsPrompts(w: World, mid: seq<nat>)
    requires Ok(w)
    ensures var b, b' := w.r.batcher, Step(w.r, mid).batcher;
      && b'.maxSeqs == b.maxSeqs && b'.budget == b.budget && b'.requests.Keys == b.requests.Keys
      && forall id :: id in b.requests ==> b'.requests[id].prompt == b.requests[id].prompt
  {
    hide Ok, MidOk, BatcherShape, Schedule, Filter, Execute, Step, Decided;
    OkShape(w);
    var s := Schedule(w.r.batcher);
    SchedulePrompts(w);
    var w1 := w.(r := w.r.(batcher := s.batcher));
    ScheduleShape(w.r.batcher);
    CancelAllEffect(w1.r, mid);
    CancelAllLimits(w1.r, mid);
    DecidedMid(w, mid);
    DecidedBatcher(w, mid);
    var requests, events := ExecuteEffect(Decided(w, mid), s.prefill, s.decode);
  }

  lemma SchedulePrompts(w: World)
    requires Ok(w)
    ensures var b, b' := w.r.batcher, Schedule(w.r.batcher).batcher;
      && b'.maxSeqs == b.maxSeqs && b'.budget == b.budget && b'.requests.Keys == b.requests.Keys
      && forall id :: id in b.requests ==> b'.requests[id].prompt == b.requests[id].prompt
  {
    FilterChangesNothing(w);
    var news := ScheduleKeeps(w.r.batcher);
  }

  lemma {:induction false} CancelAllLimits(r: Runner, ids: seq<nat>)
    requires BatcherShape(r.batcher)
    ensures CancelAll(r, ids).batcher.maxSeqs == r.batcher.maxSeqs
    ensures CancelAll(r, ids).batcher.budget == r.batcher.budget
  {
    if ids != [] {
      CancelAllLimits(r, ids[..|ids| - 1]);
    }
  }

  /** After as many steps as the measure says, nobody waits and nobody runs, and
      every request is finished. */
  lemma {:induction false} Drains(w: World, mids: seq<seq<nat>>, w': World)
    requires RunOk(w) && Drainable(w.r.batcher) && Steps(w, mids, w')
    requires |mids| >= Measure(w.r.batcher)
    ensures w'.r.batcher.waiting == [] && w'.r.batcher.running == [] && RunOk(w')
    ensures forall id :: id in w'.r.batcher.requests ==> w'.r.batcher.requests[id].state == Finished
    decreases |mids|
  {
    var b := w.r.batcher;
    if mids == [] {
      EmptyMeasure(b);
      forall id | id in b.requests ensures b.requests[id].state == Finished {
        assert Placed(w, id);
      }
    } else {
      var w1 := After(w, Step(w.r, mids[0]));
      StepRunOk(w, mids[0]);
      StaysDrainable(w, mids[0]);
      if b.waiting != [] || b.running != [] {
        StepShrinks(w, mids[0]);
        ShrinksMeasure(b, w1.r.batcher);
      } else {
        EmptyMeasure(w1.r.batcher);
      }
      hide Ok, Drainable, Measure, Step;
      Drains(w1, mids[1..], w');
    }
  }

  lemma EmptyMeasure(b: Batcher)
    requires BatcherShape(b)
    ensures Measure(b) == 0 <==> b.waiting == [] && b.running == []
  {
    TotalZero(Weights(b));
    if b.waiting != [] {
      assert b.waiting[0] in Weights(b);
    }
    if b.running != [] {
      assert b.running[0] in Weights(b);
    }
  }

  // ----- One step without cancellations, request by request -----

  lemma ScheduledRequest(w: World, id: nat)
    requires Ok(w) && id in w.r.batcher.requests
    ensures var b, s := w.r.batcher, Schedule(w.r.batcher);
      && id in s.batcher.requests
      && s.batcher.requests[id].generated == b.requests[id].generated
      && s.batcher.requests[id].prompt == b.requests[id].prompt
      && s.batcher.requests[id].maxNewTokens == b.requests[id].maxNewTokens
      && (s.batcher.requests[id].state == Finished <==> b.requests[id].state == Finished)
      && (id in s.prefill || id in s.decode ==> s.batcher.requests[id].state != Finished)
  {
    FilterChangesNothing(w);
    var news := ScheduleKeeps(w.r.batcher);
    if id in Schedule(w.r.batcher).prefill || id in Schedule(w.r.batcher).decode {
      ScheduledRunning(w, id);
    }
  }

  /** The events of a step, seen from one request: at most one event, one token for
      it, and the request is finished exactly if that event is final. */
  lemma StepRequest(w: World, id: nat) returns (events: seq<Event>)
    requires Ok(w) && id in w.r.batcher.requests
    ensures var w' := After(w, Step(w.r, [])); var r, r' := w.r.batcher.requests[id], w'.r.batcher.requests;
      && w'.r.queue == w.r.queue + events && w'.hist == w.hist + events
      && w'.r.cancelled == w.r.cancelled && w'.stopped == w.stopped
      && r'.Keys == w.r.batcher.requests.Keys
      && (forall i :: 0 <= i < |events| ==> events[i].id in r')
      && r'[id].prompt == r.prompt && r'[id].maxNewTokens == r.maxNewTokens
      && var mine := EventsOf(events, id);
         || (mine == [] && r'[id].generated == r.generated && (r'[id].state == Finished <==> r.state == Finished))
         || (|mine| == 1 && mine[0].id == id && r.state != Finished
             && r'[id].generated == r.generated + [mine[0].token]
             && (r'[id].state == Finished <==> mine[0].isFinal))
  {
    hide Ok, MidOk, BatcherShape, Schedule, Execute, Step, Decided, Listed;
    OkShape(w);
    var s := Schedule(w.r.batcher);
    ScheduledRequest(w, id);
    DecidedMid(w, []);
    ScheduleShape(w.r.batcher);
    DecidedBatcher(w, []);
    var w2 := Decided(w, []);
    var requests, e := ExecuteEffect(w2, s.prefill, s.decode);
    events := e;
    assert w2.r == w.r.(batcher := s.batcher);
    DecidedRest(w, []);
    StateOfGenerate(w.r.vocab, w.r.eos, id, w2.r.batcher.requests[id], id in s.prefill);
  }

  lemma StepKeys(w: World) returns (events: seq<Event>)
    requires Ok(w)
    ensures var w' := After(w, Step(w.r, []));
      && w'.r.queue == w.r.queue + events && w'.r.batcher.requests.Keys == w.r.batcher.requests.Keys
      && w'.r.cancelled == w.r.cancelled
      && forall i :: 0 <= i < |events| ==> events[i].id in w.r.batcher.requests
  {
    hide Ok, MidOk, BatcherShape, Schedule, Execute, Step, Decided, Listed;
    OkShape(w);
    DecidedMid(w, []);
    var s := Schedule(w.r.batcher);
    var requests, e := ExecuteEffect(Decided(w, []), s.prefill, s.decode);
    ScheduleShape(w.r.batcher);
    DecidedBatcher(w, []);
    events := e;
  }

  lemma DecidedRest(w: World, mid: seq<nat>)
    requires BatcherOk(w.r.batcher)
    ensures Decided(w, mid).hist == w.hist && Decided(w, mid).stopped == w.stopped
  {
  }

  lemma StateOfGenerate(vocab: Vocab, eos: int, id: nat, r: Request, prefill: bool)
    ensures RequestOk(r) ==>
      var (r', e) := Generate(vocab, eos, id, r, prefill);
      && r'.generated == r.generated + [e.token] && r'.prompt == r.prompt && e.id == id
      && r'.maxNewTokens == r.maxNewTokens
      && (r.state != Finished ==> (r'.state == Finished <==> e.isFinal))
  {
  }

  // ----- What the next step will emit -----

  /** The request is in the next batch. */
  predicate InBatch(b: Batcher, id: nat)
    requires BatcherOk(b)
  {
    id in Schedule(b).prefill || id in Schedule(b).decode
  }

  /** The event a request of the next batch emits, from its record alone. */
  function NextEvent(r: Runner, id: nat): Event
    requires id in r.batcher.requests && RequestOk(r.batcher.requests[id])
  {
    var q := r.batcher.requests[id];
    Generate(r.vocab, r.eos, id, q, q.generated == []).1
  }

  lemma NextEventOf(vocab: Vocab, eos: int, id: nat, q: Request, q': Request, prefill: bool)
    requires q'.prompt == q.prompt && q'.generated == q.generated && q'.maxNewTokens == q.maxNewTokens
    requires RequestOk(q) && RequestOk(q')
    ensures Generate(vocab, eos, id, q, prefill).1 == Generate(vocab, eos, id, q', prefill).1
  {
  }

  lemma BatchedMid(w: World, p: seq<nat>, d: seq<nat>, id: nat)
    requires MidOk(w, p, d) && id in w.r.batcher.requests
    ensures RequestOk(w.r.batcher.requests[id])
    ensures (id in p || id in d) && w.r.batcher.requests[id].state != Finished ==>
      id !in w.r.cancelled && (id in p <==> w.r.batcher.requests[id].generated == [])
  {
    assert Story(w, id) && Batched(w, p, d, id);
  }

  lemma OkRequest(w: World, id: nat)
    requires Ok(w) && id in w.r.batcher.requests
    ensures BatcherOk(w.r.batcher) && RequestOk(w.r.batcher.requests[id])
  {
    assert Story(w, id);
  }

  /** A step emits exactly one event for each request of its batch, and which one can
      be told before. */
  lemma StepEvent(w: World, events: seq<Event>, id: nat)
    requires Ok(w) && id in w.r.batcher.requests && After(w, Step(w.r, [])).r.queue == w.r.queue + events
    ensures BatcherOk(w.r.batcher) && RequestOk(w.r.batcher.requests[id])
    ensures EventsOf(events, id) == if InBatch(w.r.batcher, id) then [NextEvent(w.r, id)] else []
  {
    hide Ok, MidOk, BatcherShape, Schedule, Execute, Step, Decided, Listed, Generate, RequestOk;
    OkRequest(w, id);
    var s := Schedule(w.r.batcher);
    ScheduledRequest(w, id);
    DecidedMid(w, []);
    ScheduleShape(w.r.batcher);
    DecidedBatcher(w, []);
    var w2 := Decided(w, []);
    var requests, e := ExecuteEffect(w2, s.prefill, s.decode);
    assert w2.r == w.r.(batcher := s.batcher);
    assert (w.r.queue + events)[|w.r.queue|..] == events && (w.r.queue + e)[|w.r.queue|..] == e;
    BatchedMid(w2, s.prefill, s.decode, id);
    NextEventOf(w.r.vocab, w.r.eos, id, w.r.batcher.requests[id], w2.r.batcher.requests[id], id in s.prefill);
  }

  // ----- The order of the events -----

  /** events are for the requests ids, one for each, in their order. */
  predicate InTurn(events: seq<Event>, ids: seq<nat>) {
    |events| == |ids| && forall k :: 0 <= k < |ids| ==> events[k].id == ids[k]
  }

  lemma {:induction false} GeneratedInTurn(vocab: Vocab, eos: int, g: Generated, ids: seq<nat>, prefill: bool)
    requires Listed(g.requests, ids)
    requires forall id :: id in g.requests ==> RequestOk(g.requests[id])
    ensures var e := GenerateAll(vocab, eos, g, ids, prefill).events;
      |e| == |g.events| + |ids| && e[..|g.events|] == g.events && InTurn(e[|g.events|..], ids)
  {
    hide RequestOk, Sample;
    if ids != [] {
      GeneratedInTurn(vocab, eos, g, ids[..|ids| - 1], prefill);
    }
  }

  lemma ExecuteInTurn(r: Runner, p: seq<nat>, d: seq<nat>)
    requires BatcherShape(r.batcher) && Listed(r.batcher.requests, p) && Listed(r.batcher.requests, d)
    ensures var q, n := Execute(r, p, d).queue, |r.queue|;
      n <= |q| && q[..n] == r.queue && InTurn(q[n..], Drop(p, r.cancelled) + Drop(d, r.cancelled))
  {
    hide Finish, GenerateAll, Listed, RequestOk, Drop, FinalIds;
    var p', d' := Drop(p, r.cancelled), Drop(d, r.cancelled);
    DropListed(r.batcher.requests, p, r.cancelled);
    DropListed(r.batcher.requests, d, r.cancelled);
    if |p'| + |d'| > 0 {
      var events := BatchInTurn(r.vocab, r.eos, r.batcher.requests, p', d');
      assert (r.queue + events)[|r.queue|..] == events && (r.queue + events)[..|r.queue|] == r.queue;
    }
  }

  lemma BatchInTurn(vocab: Vocab, eos: int, requests: Store, p: seq<nat>, d: seq<nat>) returns (events: seq<Event>)
    requires Listed(requests, p) && Listed(requests, d)
    requires forall id :: id in requests ==> RequestOk(requests[id])
    ensures var g1 := GenerateAll(vocab, eos, Generated(requests, []), p, true);
      Listed(g1.requests, d) && events == GenerateAll(vocab, eos, g1, d, false).events
    ensures InTurn(events, p + d)
  {
    hide GenerateAll, RequestOk, InTurn;
    var g1 := GenerateAll(vocab, eos, Generated(requests, []), p, true);
    GeneratedInTurn(vocab, eos, Generated(requests, []), p, true);
    GeneratedInTurn(vocab, eos, g1, d, false);
    events := GenerateAll(vocab, eos, g1, d, false).events;
    InTurnBoth(g1.events, events, p, d);
  }

  lemma InTurnBoth(first: seq<Event>, events: seq<Event>, p: seq<nat>, d: seq<nat>)
    requires InTurn(first[0..], p) && |events| == |first| + |d| && events[..|first|] == first
    requires InTurn(events[|first|..], d)
    ensures InTurn(events, p + d)
  {
    assert events == first + events[|first|..] && first[0..] == first;
  }

  lemma {:induction false} CancelAllIds(r: Runner, ids: seq<nat>)
    requires BatcherShape(r.batcher)
    ensures CancelAll(r, ids).cancelled == r.cancelled + set id | id in ids
  {
    if ids != [] {
      CancelAllIds(r, ids[..|ids| - 1]);
      assert ids == ids[..|ids| - 1] + [ids[|ids| - 1]];
    }
  }

  /** A step emits the prefilled requests in the order of their admission and then the
      decoded ones in the order of the running list, without those cancelled before. */
  lemma StepInTurn(w: World, mid: seq<nat>)
    requires Ok(w)
    ensures BatcherOk(w.r.batcher)
    ensures var s, q, n := Schedule(w.r.batcher), Step(w.r, mid).queue, |w.r.queue|;
      var gone := w.r.cancelled + set id | id in mid;
      n <= |q| && q[..n] == w.r.queue && InTurn(q[n..], Drop(s.prefill, gone) + Drop(s.decode, gone))
  {
    hide Ok, MidOk, BatcherShape, Schedule, Execute, Step, Decided, Listed, Drop, InTurn;
    OkShape(w);
    var s := Schedule(w.r.batcher);
    DecidedMid(w, mid);
    ScheduleShape(w.r.batcher);
    DecidedBatcher(w, mid);
    CancelAllIds(w.r.(batcher := s.batcher), mid);
    MidShape(Decided(w, mid), s.prefill, s.decode);
    ExecuteInTurn(Decided(w, mid).r, s.prefill, s.decode);
  }

  lemma MidShape(w: World, p: seq<nat>, d: seq<nat>)
    requires MidOk(w, p, d)
    ensures BatcherShape(w.r.batcher) && Listed(w.r.batcher.requests, p) && Listed(w.r.batcher.requests, d)
  {
  }
}
