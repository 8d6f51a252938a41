/** What every scheduling step keeps: no preemption, the token budget, the order
    of admission, and which requests are where. */
module BatchingProofs {
  import opened Sums
  import opened Batching

  // ----- Admission -----

  ghost function PromptTokens(requests: Store, s: seq<nat>): nat
    requires Listed(requests, s)
  {
    if s == [] then 0 else PromptTokens(requests, s[..|s| - 1]) + |requests[s[|s| - 1]].prompt|
  }

  /** A batcher in the middle of its admission loop. */
  ghost predicate Admitting(b: Batcher, tokens: nat) {
    && BatcherShape(b) && Apart(b.waiting, b.running)
    && |b.running| <= b.maxSeqs && |b.running| <= tokens <= b.budget
  }

  /** The loop admits news, in order, from the waiting pool to the running list. */
  ghost predicate Admitted(b: Batcher, b': Batcher, news: seq<nat>) {
    && b'.maxSeqs == b.maxSeqs && b'.budget == b.budget && b'.known == b.known
    && b'.running == b.running + news
    && b'.requests.Keys == b.requests.Keys
    && (forall id :: id in b'.waiting ==> id in b.waiting && id !in news)
    && (forall id :: id in news ==> id in b.waiting && id in b.requests && b.requests[id].state != Finished
                                    && b'.requests[id] == b.requests[id].(state := Running))
    && (forall id :: id in b.requests && id !in news ==> b'.requests[id] == b.requests[id])
    && (forall id :: id in b.waiting && id in b.requests && id !in news && id !in b'.waiting ==>
      b.requests[id].state == Finished)
  }

  lemma AdmittingListed(b: Batcher, tokens: nat)
    requires Admitting(b, tokens)
    ensures Listed(b.requests, b.waiting)
  {
  }

  lemma ApplyAdmitting(b: Batcher, tokens: nat)
    requires Admitting(b, tokens)
    ensures var v := Judge(b, tokens);
      && (v == Seat ==> Admitting(Apply(b, v), tokens + |b.requests[Top(b.requests, b.waiting)].prompt|))
      && (v != Seat ==> Admitting(Apply(b, v), tokens))
  {
    var v := Judge(b, tokens);
    if v != Stop {
      var id := Top(b.requests, b.waiting);
      WithoutNoDup(b.waiting, id);
      assert b.requests[id].prompt != [];
    }
  }

  lemma AdmittedRest(b: Batcher, tokens: nat, b': Batcher, more: seq<nat>)
    requires Admitting(b, tokens) && Judge(b, tokens) != Seat
    requires Admitted(Apply(b, Judge(b, tokens)), b', more)
    ensures Admitted(b, b', more)
  {
    if Judge(b, tokens) != Stop {
      WithoutNoDup(b.waiting, Top(b.requests, b.waiting));
    }
  }

  lemma AdmittedSeat(b: Batcher, tokens: nat, b': Batcher, more: seq<nat>)
    requires Admitting(b, tokens) && Judge(b, tokens) == Seat
    requires Admitted(Apply(b, Seat), b', more)
    ensures Admitted(b, b', [Top(b.requests, b.waiting)] + more)
  {
    hide Admitting, Judge, Top, Apply, Listed;
    AdmittingListed(b, tokens);
    SeatEffect(b, tokens);
    var id := Top(b.requests, b.waiting);
    assert b'.running == b.running + ([id] + more);
    assert forall x :: x in [id] + more <==> x == id || x in more;
  }

  lemma SeatEffect(b: Batcher, tokens: nat)
    requires Admitting(b, tokens) && Judge(b, tokens) == Seat
    ensures var id, b1 := Top(b.requests, b.waiting), Apply(b, Seat);
      && id in b.waiting && id in b.requests && id !in b1.waiting && b.requests[id].state != Finished
      && b1 == b.(waiting := b1.waiting, requests := SetState(b.requests, id, Running), running := b.running + [id])
      && forall x :: x in b1.waiting <==> x in b.waiting && x != id
  {
    WithoutNoDup(b.waiting, Top(b.requests, b.waiting));
  }

  /** One verdict, then the rest of the loop. */
  lemma AdmittedApply(b: Batcher, tokens: nat, b': Batcher, more: seq<nat>)
    requires Admitting(b, tokens)
    requires Admitted(Apply(b, Judge(b, tokens)), b', more)
    ensures Admitted(b, b', if Judge(b, tokens) == Seat then [Top(b.requests, b.waiting)] + more else more)
  {
    hide Apply, Judge, Admitted, Admitting, Listed, Top;
    AdmittingListed(b, tokens);
    if Judge(b, tokens) == Seat {
      AdmittedSeat(b, tokens, b', more);
    } else {
      AdmittedRest(b, tokens, b', more);
    }
  }

  lemma {:induction false} PromptTokensCons(requests: Store, id: nat, s: seq<nat>)
    requires id in requests && Listed(requests, s)
    ensures Listed(requests, [id] + s)
    ensures PromptTokens(requests, [id] + s) == |requests[id].prompt| + PromptTokens(requests, s)
    decreases |s|
  {
    if s == [] {
      assert [id] + s == [id] && [id][..0] == [];
    } else {
      PromptTokensCons(requests, id, s[..|s| - 1]);
      assert ([id] + s)[..|s|] == [id] + s[..|s| - 1];
    }
  }

  lemma {:induction false} PromptTokensFrame(requests: Store, requests': Store, s: seq<nat>)
    requires Listed(requests, s) && Listed(requests', s)
    requires forall id :: id in s ==> requests'[id].prompt == requests[id].prompt
    ensures PromptTokens(requests', s) == PromptTokens(requests, s)
  {
    if s != [] {
      PromptTokensFrame(requests, requests', s[..|s| - 1]);
    }
  }

  lemma SeatTokens(b: Batcher, tokens: nat, more: seq<nat>)
    requires Listed(b.requests, b.waiting) && Judge(b, tokens) == Seat && Listed(Apply(b, Seat).requests, more)
    ensures var id := Top(b.requests, b.waiting);
      && Listed(b.requests, more) && Listed(b.requests, [id] + more)
      && PromptTokens(b.requests, [id] + more) == |b.requests[id].prompt| + PromptTokens(Apply(b, Seat).requests, more)
  {
    PromptTokensCons(b.requests, Top(b.requests, b.waiting), more);
    PromptTokensFrame(b.requests, Apply(b, Seat).requests, more);
  }

  lemma AdmittedNothing(b: Batcher)
    ensures Admitted(b, b, []) && Listed(b.requests, []) && PromptTokens(b.requests, []) == 0
  {
  }

  /** The admission loop keeps the seats and the budget, and counts its tokens. */
  ghost predicate AdmitOutcome(b: Batcher, tokens: nat, prefill: seq<nat>, r: Scheduled, news: seq<nat>) {
    && r.prefill == prefill + news && r.preempted == 0 && r.decode == []
    && Admitted(b, r.batcher, news)
    && Admitting(r.batcher, r.tokens)
    && Listed(b.requests, news) && r.tokens == tokens + PromptTokens(b.requests, news)
  }

  lemma OutcomeSkip(b: Batcher, tokens: nat, prefill: seq<nat>, r: Scheduled, news: seq<nat>)
    requires Admitting(b, tokens) && Judge(b, tokens) == Skip
    requires AdmitOutcome(Apply(b, Skip), tokens, prefill, r, news)
    ensures AdmitOutcome(b, tokens, prefill, r, news)
  {
    assert Listed(b.requests, b.waiting) && Apply(b, Skip).requests == b.requests;
    hide Apply, Judge, Admitted, Admitting, Listed, PromptTokens, Top;
    AdmittedApply(b, tokens, r.batcher, news);
  }

  lemma OutcomeSeat(b: Batcher, tokens: nat, prefill: seq<nat>, r: Scheduled, more: seq<nat>)
    requires Admitting(b, tokens) && Judge(b, tokens) == Seat
    requires var id := Top(b.requests, b.waiting);
      AdmitOutcome(Apply(b, Seat), tokens + |b.requests[id].prompt|, prefill + [id], r, more)
    ensures AdmitOutcome(b, tokens, prefill, r, [Top(b.requests, b.waiting)] + more)
  {
    hide Apply, Judge, Admitted, Admitting, PromptTokens, Listed, Top;
    AdmittingListed(b, tokens);
    var id := Top(b.requests, b.waiting);
    AdmittedApply(b, tokens, r.batcher, more);
    SeatTokens(b, tokens, more);
    assert prefill + [id] + more == prefill + ([id] + more);
  }

  lemma OutcomeEnd(b: Batcher, tokens: nat, prefill: seq<nat>)
    requires Admitting(b, tokens) && (Judge(b, tokens) == Stop || Judge(b, tokens) == Defer)
    ensures AdmitOutcome(b, tokens, prefill, Admit(b, tokens, prefill), [])
  {
    assert Listed(b.requests, b.waiting);
    var b1 := Apply(b, Judge(b, tokens));
    assert Admit(b, tokens, prefill) == Scheduled(b1, prefill, [], tokens, 0);
    hide Apply, Judge, Admit, Admitted, Admitting, PromptTokens, Listed, Top;
    ApplyAdmitting(b, tokens);
    AdmittedNothing(b1);
    AdmittedApply(b, tokens, b1, []);
    AdmittedNothing(b);
    assert prefill + [] == prefill;
  }

  lemma {:induction false} AdmitKeeps(b: Batcher, tokens: nat, prefill: seq<nat>) returns (r: Scheduled, news: seq<nat>)
    requires Admitting(b, tokens)
    ensures r == Admit(b, tokens, prefill) && AdmitOutcome(b, tokens, prefill, r, news)
    decreases |b.waiting|
  {
    hide Apply, AdmitOutcome, Admitting, Listed, Top, Judge;
    AdmittingListed(b, tokens);
    var v := Judge(b, tokens);
    ApplyAdmitting(b, tokens);
    r := Admit(b, tokens, prefill);
    if v == Skip {
      r, news := AdmitKeeps(Apply(b, v), tokens, prefill);
      OutcomeSkip(b, tokens, prefill, r, news);
    } else if v == Seat {
      var id := Top(b.requests, b.waiting);
      r, news := AdmitKeeps(Apply(b, v), tokens + |b.requests[id].prompt|, prefill + [id]);
      OutcomeSeat(b, tokens, prefill, r, news);
      news := [id] + news;
    } else {
      news := [];
      OutcomeEnd(b, tokens, prefill);
    }
  }

  // ----- The whole step -----

  lemma FilterOk(b: Batcher)
    requires BatcherOk(b)
    ensures BatcherOk(Filter(b))
  {
    var d := Dropped(b, |b.running|);
    FilterShape(b);
    DropNoDup(b.running, d);
    DropMembers(b.running, d);
  }

  /** Preemption is unreachable: with no more running requests than the budget has
      tokens, every request the filter keeps decodes, none is preempted, and the
      tokens of the step are one per decode plus the admitted prompts. */
  lemma ScheduleKeeps(b: Batcher) returns (news: seq<nat>)
    requires BatcherOk(b)
    ensures var r := Schedule(b); var b1 := Filter(b);
      && r.preempted == 0
      && r.decode == b1.running && r.prefill == news
      && Admitted(b1, r.batcher, news)
      && BatcherOk(r.batcher)
      && Listed(b1.requests, news)
      && r.tokens == |r.decode| + PromptTokens(b1.requests, news) <= b.budget
  {
    hide NoDup, Admitted, PromptTokens, Admit, Listed;
    FilterOk(b);
    FilterShape(b);
    var b1 := Filter(b);
    var r;
    r, news := AdmitKeeps(b1, |b1.running|, []);
    assert [] + news == news;
    AdmittedBudget(b1, r.batcher, news);
  }

  lemma AdmittedBudget(b: Batcher, b': Batcher, news: seq<nat>)
    requires Admitted(b, b', news)
    ensures b'.budget == b.budget
  {
  }

  // ----- Order of admission -----

  /** Nobody in the list has a higher priority than request id, and nobody of the same
      priority arrived earlier. */
  ghost predicate NoneBetter(requests: Store, s: seq<nat>, id: nat) {
    && id in requests
    && forall i :: 0 <= i < |s| && s[i] in requests ==>
         var other, mine := requests[s[i]], requests[id];
         && other.priority <= mine.priority
         && (other.priority == mine.priority ==> other.arrival >= mine.arrival)
  }

  lemma BetterFrame(requests: Store, requests': Store, s: seq<nat>, s': seq<nat>, id: nat)
    requires NoneBetter(requests, s, id) && id in requests'
    requires forall x :: x in s' ==> x in s
    requires forall x :: x in requests' && x in requests ==>
      requests'[x].priority == requests[x].priority && requests'[x].arrival == requests[x].arrival
    requires forall x :: x in s && x in requests' ==> x in requests
    ensures NoneBetter(requests', s', id)
  {
    forall i | 0 <= i < |s'| && s'[i] in requests'
      ensures requests'[s'[i]].priority <= requests'[id].priority
      ensures requests'[s'[i]].priority == requests'[id].priority ==> requests'[s'[i]].arrival >= requests'[id].arrival
    {
      var k :| 0 <= k < |s| && s[k] == s'[i];
    }
  }

  /** The k-th admitted request is no worse than any admitted later or left waiting. */
  ghost predicate BestFirst(r: Scheduled, k: nat)
    requires k < |r.prefill|
  {
    && NoneBetter(r.batcher.requests, r.batcher.waiting, r.prefill[k])
    && NoneBetter(r.batcher.requests, r.prefill[k..], r.prefill[k])
  }

  /** Nobody waits, the seats are taken, or the best request left does not fit. */
  ghost predicate Exhausted(r: Scheduled) {
    || r.batcher.waiting == [] || |r.batcher.running| >= r.batcher.maxSeqs
    || exists id :: && id in r.batcher.waiting && NoneBetter(r.batcher.requests, r.batcher.waiting, id)
                    && r.batcher.requests[id].state != Finished
                    && r.tokens + |r.batcher.requests[id].prompt| > r.batcher.budget
  }

  /** Requests are admitted best first, and the loop stops only when it must. */
  lemma {:induction false} AdmitInOrder(b: Batcher, tokens: nat, prefill: seq<nat>)
    requires Admitting(b, tokens)
    ensures var r := Admit(b, tokens, prefill);
      Exhausted(r) && forall k :: |prefill| <= k < |r.prefill| ==> BestFirst(r, k)
    decreases |b.waiting|
  {
    hide Apply, BestFirst, Exhausted, Admitting, Listed, Top, Judge;
    AdmittingListed(b, tokens);
    var v := Judge(b, tokens);
    ApplyAdmitting(b, tokens);
    if v == Skip {
      AdmitInOrder(Apply(b, v), tokens, prefill);
    } else if v == Seat {
      var id := Top(b.requests, b.waiting);
      AdmitInOrder(Apply(b, v), tokens + |b.requests[id].prompt|, prefill + [id]);
      SeatBest(b, tokens, prefill);
    } else {
      EndExhausted(b, tokens, prefill);
    }
  }

  lemma SeatBest(b: Batcher, tokens: nat, prefill: seq<nat>)
    requires Admitting(b, tokens) && Judge(b, tokens) == Seat
    ensures var r := Admit(b, tokens, prefill); |prefill| < |r.prefill| && BestFirst(r, |prefill|)
  {
    hide Apply, Admitting, Admitted, Judge, Top, PromptTokens, NoneBetter, Listed;
    AdmittingListed(b, tokens);
    ApplyAdmitting(b, tokens);
    TopIsBest(b.requests, b.waiting);
    var k, id := |prefill|, Top(b.requests, b.waiting);
    var r, news := AdmitKeeps(b, tokens, prefill);
    var r1, more := AdmitKeeps(Apply(b, Seat), tokens + |b.requests[id].prompt|, prefill + [id]);
    assert r == r1;
    hide Admit;
    assert r.prefill[k] == id && r.prefill[k..] == news;
    AdmittedBest(b, r.batcher, news, id);
  }

  lemma TopIsBest(requests: Store, s: seq<nat>)
    requires s != [] && Listed(requests, s)
    ensures NoneBetter(requests, s, Top(requests, s))
  {
  }

  lemma AdmittedBest(b: Batcher, b': Batcher, news: seq<nat>, id: nat)
    requires Listed(b.requests, b.waiting) && Admitted(b, b', news) && NoneBetter(b.requests, b.waiting, id)
    ensures NoneBetter(b'.requests, b'.waiting, id) && NoneBetter(b'.requests, news, id)
  {
    BetterFrame(b.requests, b'.requests, b.waiting, news, id);
    BetterFrame(b.requests, b'.requests, b.waiting, b'.waiting, id);
  }

  lemma EndExhausted(b: Batcher, tokens: nat, prefill: seq<nat>)
    requires Admitting(b, tokens) && (Judge(b, tokens) == Stop || Judge(b, tokens) == Defer)
    ensures Exhausted(Admit(b, tokens, prefill)) && Admit(b, tokens, prefill).prefill == prefill
  {
    if Judge(b, tokens) == Defer {
      var b', id := Apply(b, Defer), Top(b.requests, b.waiting);
      WithoutNoDup(b.waiting, id);
      assert b'.waiting[|b'.waiting| - 1] == id;
      assert forall x :: x in b'.waiting ==> x in b.waiting;
      assert NoneBetter(b.requests, b.waiting, id);
      BetterFrame(b.requests, b'.requests, b.waiting, b'.waiting, id);
    }
  }

  /** A step admits best first and leaves someone waiting only when it must. */
  lemma ScheduleInOrder(b: Batcher)
    requires BatcherOk(b)
    ensures var r := Schedule(b); Exhausted(r) && forall k :: 0 <= k < |r.prefill| ==> BestFirst(r, k)
  {
    FilterOk(b);
    FilterShape(b);
    AdmitInOrder(Filter(b), |Filter(b).running|, []);
    hide NoneBetter;
    var r0, r := Admit(Filter(b), |Filter(b).running|, []), Schedule(b);
    assert r == r0.(decode := Filter(b).running);
    forall k | 0 <= k < |r.prefill| ensures BestFirst(r, k) {
      assert BestFirst(r0, k);
    }
  }

  // ----- The other operations, in terms of the fields -----

  /** A request is taken exactly if it has a prompt and its id is not known; it then
      waits, and nothing else has changed. */
  lemma AddIff(b: Batcher, id: nat, r: Request)
    ensures var (ok, b') := Add(b, id, r);
      && (ok <==> r.prompt != [] && id !in b.known)
      && (!ok ==> b' == b)
      && (ok ==> id in b'.requests && b'.requests[id] == r.(state := Waiting) && id in b'.known && id in b'.waiting)
      && b'.running == b.running
      && (forall x :: x in b.requests && x != id ==> x in b'.requests && b'.requests[x] == b.requests[x])
      && multiset(b'.waiting) == multiset(b.waiting) + if ok then multiset{id} else multiset{}
  {
  }

  /** A cancellation reports whether the id was known; the request then is finished,
      forgotten and not running, and nothing else has changed. */
  lemma CancelIff(b: Batcher, id: nat)
    requires BatcherShape(b)
    ensures var (ok, b') := Cancel(b, id);
      && (ok <==> id in b.known)
      && (!ok ==> b' == b)
      && (ok ==> b'.requests[id].state == Finished && id !in b'.known && id !in b'.running)
      && b'.waiting == b.waiting && (forall x :: x in b.requests && x != id ==> b'.requests[x] == b.requests[x])
      && (forall x :: x != id ==> (x in b'.running <==> x in b.running) && (x in b'.known <==> x in b.known))
  {
    DropMembers(b.running, {id});
  }

  /** Finishing marks the given requests that are known, and nothing else. */
  lemma {:induction false} FinishIff(b: Batcher, ids: seq<nat>)
    requires b.known <= b.requests.Keys
    ensures var b' := Finish(b, ids);
      && b' == b.(requests := b'.requests) && b'.requests.Keys == b.requests.Keys
      && forall x :: x in b.requests ==>
           b'.requests[x] == if x in ids && x in b.known then b.requests[x].(state := Finished) else b.requests[x]
  {
    if ids != [] {
      FinishIff(b, ids[..|ids| - 1]);
      assert ids == ids[..|ids| - 1] + [ids[|ids| - 1]];
    }
  }

  /** The filter keeps a running request exactly if it is in the running state and has
      not reached its limit; a negative limit is one of 2^64 less its amount. What it
      drops is finished and forgotten. */
  lemma FilterIff(b: Batcher, id: nat)
    requires BatcherShape(b) && id in b.running
    ensures id in b.requests
    ensures var b', r := Filter(b), b.requests[id];
      var limit := if r.maxNewTokens >= 0 then r.maxNewTokens else 18446744073709551616 + r.maxNewTokens;
      && (id in b'.running <==> r.state == Running && |r.generated| < limit)
      && (id !in b'.running ==> b'.requests[id].state == Finished && id !in b'.known)
      && (id in b'.running ==> b'.requests[id] == r && (id in b'.known <==> id in b.known))
  {
    assert b.running[..|b.running|] == b.running;
    DropMembers(b.running, Dropped(b, |b.running|));
  }

  lemma {:induction false} InsertLowest(requests: Store, s: seq<nat>, id: nat)
    requires Listed(requests, s) && id in requests
    requires forall i :: 0 < i < |s| ==> requests[s[0]].priority <= requests[s[i]].priority
    ensures var t := Insert(requests, s, id);
      && multiset(t) == multiset(s) + multiset{id}
      && forall i :: 0 < i < |t| ==> requests[t[0]].priority <= requests[t[i]].priority
    decreases |s|
  {
    if s != [] && requests[s[|s| - 1]].priority > requests[id].priority {
      var u := s[..|s| - 1];
      InsertLowest(requests, u, id);
      assert s == u + [s[|s| - 1]];
      var t := Insert(requests, u, id);
      assert id in multiset(t);
      var i :| 0 <= i < |t| && t[i] == id;
    }
  }

  lemma {:induction false} SortLowest(requests: Store, s: seq<nat>)
    requires Listed(requests, s)
    ensures var t := SortByPriority(requests, s);
      && multiset(t) == multiset(s)
      && forall i :: 0 < i < |t| ==> requests[t[0]].priority <= requests[t[i]].priority
    decreases |s|
  {
    if s != [] {
      SortLowest(requests, s[..|s| - 1]);
      assert s == s[..|s| - 1] + [s[|s| - 1]];
      InsertLowest(requests, SortByPriority(requests, s[..|s| - 1]), s[|s| - 1]);
    }
  }

  /** Backpressure takes one request of the lowest priority from the running ones; it
      waits as preempted, and all others run on. */
  lemma PreemptLowest(b: Batcher) returns (id: nat)
    requires BatcherShape(b) && b.running != []
    ensures id in b.running && id in b.requests
    ensures forall x :: x in b.running ==> x in b.requests && b.requests[id].priority <= b.requests[x].priority
    ensures var b' := Preempt(b);
      && multiset(b'.running) + multiset{id} == multiset(b.running)
      && b'.waiting == b.waiting + [id] && b'.requests == b.requests[id := b.requests[id].(state := Preempted)]
  {
    var t := SortByPriority(b.requests, b.running);
    SortLowest(b.requests, b.running);
    id := t[0];
    assert t == [id] + t[1..];
    assert id in multiset(t);
    forall x | x in b.running ensures x in b.requests && b.requests[id].priority <= b.requests[x].priority {
      assert x in multiset(t);
      var i :| 0 <= i < |t| && t[i] == x;
    }
  }

  /** Once the tokens are used up, no request is admitted. */
  lemma {:induction false} FullAdmitsNothing(b: Batcher, tokens: nat, prefill: seq<nat>)
    requires BatcherShape(b) && tokens >= b.budget
    ensures var r := Admit(b, tokens, prefill);
      r.prefill == prefill && r.tokens == tokens && r.batcher.running == b.running
    decreases |b.waiting|
  {
    if Judge(b, tokens) == Skip {
      FullAdmitsNothing(Apply(b, Skip), tokens, prefill);
    }
  }

  /** A step on more running requests than the budget decodes as many as it can pay for,
      in order, sends one of the lowest priority back to waiting, and admits nothing. */
  lemma OverBudget(b: Batcher) returns (id: nat)
    requires BatcherShape(b) && |Filter(b).running| > b.budget
    ensures var b1, r := Filter(b), Schedule(b);
      && r.decode == b1.running[..b.budget] && r.prefill == [] && r.tokens == b.budget && r.preempted == 1
      && id in b1.running && multiset(r.batcher.running) + multiset{id} == multiset(b1.running)
      && id in b1.requests && forall x :: x in b1.running ==>
           x in b1.requests && b1.requests[id].priority <= b1.requests[x].priority
  {
    FilterShape(b);
    PreemptShape(Filter(b));
    id := PreemptLowest(Filter(b));
    FullAdmitsNothing(Preempt(Filter(b)), b.budget, []);
  }

  // ----- Runs of the batcher -----

  /** Write stands for whatever the model runner writes into a request object. */
  datatype Op =
    | DoAdd(id: nat, request: Request)
    | DoCancel(id: nat)
    | DoFinish(ids: seq<nat>)
    | DoSchedule
    | DoWrite(id: nat, generated: seq<int>, state: RequestState)

  /** A request object is added once: its id is new, or still known and refused. */
  predicate Fresh(b: Batcher, op: Op) {
    op.DoAdd? && op.request.prompt != [] ==>
      (op.id in b.requests ==> op.id in b.known) && op.request.maxNewTokens >= -0x8000_0000
  }

  function StepOp(b: Batcher, op: Op): Batcher
    requires BatcherShape(b)
  {
    match op
    case DoAdd(id, r) => Add(b, id, r).1
    case DoCancel(id) => Cancel(b, id).1
    case DoFinish(ids) => Finish(b, ids)
    case DoSchedule => Schedule(b).batcher
    case DoWrite(id, g, s) =>
      if id in b.requests then b.(requests := b.requests[id := b.requests[id].(generated := g, state := s)]) else b
  }

  lemma {:induction false} FinishOk(b: Batcher, ids: seq<nat>)
    requires BatcherOk(b)
    ensures BatcherOk(Finish(b, ids))
  {
    if ids != [] {
      FinishOk(b, ids[..|ids| - 1]);
    }
  }

  lemma CancelOk(b: Batcher, id: nat)
    requires BatcherOk(b)
    ensures BatcherOk(Cancel(b, id).1)
  {
    DropMembers(b.running, {id});
    DropNoDup(b.running, {id});
    var r := Drop(b.running, {id});
    assert forall i :: 0 <= i < |r| ==> r[i] in b.running;
  }

  lemma AddOk(b: Batcher, id: nat, r: Request)
    requires BatcherOk(b) && Fresh(b, DoAdd(id, r))
    ensures BatcherOk(Add(b, id, r).1)
  {
  }

  lemma StepOpOk(b: Batcher, op: Op)
    requires BatcherOk(b) && Fresh(b, op)
    ensures BatcherOk(StepOp(b, op))
  {
    match op
    case DoAdd(id, r) => AddOk(b, id, r);
    case DoCancel(id) => CancelOk(b, id);
    case DoFinish(ids) => FinishOk(b, ids);
    case DoSchedule => var news := ScheduleKeeps(b);
    case DoWrite(id, g, s) =>
  }

  function RunOps(maxSeqs: nat, budget: nat, ops: seq<Op>): (b: Batcher) {
    if ops == [] then Batcher(maxSeqs, budget, map[], [], [], {})
    else
      var b := RunOps(maxSeqs, budget, ops[..|ops| - 1]);
      if Shaped(b) then StepOp(b, ops[|ops| - 1]) else b
  }

  predicate Shaped(b: Batcher)
    ensures Shaped(b) ==> BatcherShape(b)
  {
    && (forall i :: 0 <= i < |b.waiting| ==> b.waiting[i] in b.requests)
    && (forall i :: 0 <= i < |b.running| ==> b.running[i] in b.requests)
    && b.known <= b.requests.Keys
    && forall id :: id in b.requests ==> b.requests[id].prompt != [] && b.requests[id].maxNewTokens >= -0x8000_0000
  }

  ghost predicate AllFresh(maxSeqs: nat, budget: nat, ops: seq<Op>) {
    ops == [] || (AllFresh(maxSeqs, budget, ops[..|ops| - 1])
                  && Fresh(RunOps(maxSeqs, budget, ops[..|ops| - 1]), ops[|ops| - 1]))
  }

  /** In every run, whatever is written into the requests, the running list fits the
      seats and the budget, so the next step preempts nobody, decodes every request
      it keeps and stays within its token budget. */
  lemma {:induction false} NeverPreempts(maxSeqs: nat, budget: nat, ops: seq<Op>)
    requires AllFresh(maxSeqs, budget, ops)
    ensures var b := RunOps(maxSeqs, budget, ops);
      && BatcherOk(b) && b.maxSeqs == maxSeqs && b.budget == budget
      && Schedule(b).preempted == 0 && Schedule(b).decode == Filter(b).running && Schedule(b).tokens <= budget
  {
    var b := RunOps(maxSeqs, budget, ops);
    if ops != [] {
      var b0 := RunOps(maxSeqs, budget, ops[..|ops| - 1]);
      NeverPreempts(maxSeqs, budget, ops[..|ops| - 1]);
      StepOpOk(b0, ops[|ops| - 1]);
      StepOpLimits(b0, ops[|ops| - 1]);
    }
    var news := ScheduleKeeps(b);
  }

  lemma StepOpLimits(b: Batcher, op: Op)
    requires BatcherOk(b)
    ensures StepOp(b, op).maxSeqs == b.maxSeqs && StepOp(b, op).budget == b.budget
  {
    match op
    case DoFinish(ids) => FinishLimits(b, ids);
    case DoSchedule => var news := ScheduleKeeps(b);
    case _ =>
  }

  lemma {:induction false} FinishLimits(b: Batcher, ids: seq<nat>)
    requires b.known <= b.requests.Keys
    ensures Finish(b, ids).maxSeqs == b.maxSeqs && Finish(b, ids).budget == b.budget
  {
    if ids != [] {
      FinishLimits(b, ids[..|ids| - 1]);
    }
  }
}
