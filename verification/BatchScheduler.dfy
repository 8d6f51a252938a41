/** The scheduler itself: the fields the source updates in place and its methods,
    each proved to take the abstract state where Batching's function does. The
    requests are records of one store, which the token loop updates as well. */
module BatchScheduler {
  import opened Sums
  import opened Batching

  lemma {:induction false} DropSame(s: seq<nat>, ids: set<nat>, ids': set<nat>)
    requires forall x :: x in s ==> (x in ids <==> x in ids')
    ensures Drop(s, ids) == Drop(s, ids')
  {
    if s != [] {
      DropSame(s[..|s| - 1], ids, ids');
    }
  }

  /** The filter has looked at the first n running requests. */
  ghost predicate Filtered(b: Batcher, n: nat, active: seq<nat>, requests: Store, known: set<nat>) {
    && BatcherShape(b) && n <= |b.running|
    && active == Drop(b.running[..n], Dropped(b, n))
    && requests == MarkFinished(b.requests, Dropped(b, n))
    && known == b.known - Dropped(b, n)
  }

  lemma FilteredNone(b: Batcher)
    requires BatcherShape(b)
    ensures Filtered(b, 0, [], b.requests, b.known)
  {
    hide BatcherShape;
    assert MarkFinished(b.requests, {}) == b.requests && b.known - {} == b.known;
  }

  lemma FilteredAll(b: Batcher, active: seq<nat>, requests: Store, known: set<nat>)
    requires Filtered(b, |b.running|, active, requests, known)
    ensures b.(running := active, requests := requests, known := known) == Filter(b)
  {
    assert b.running[..|b.running|] == b.running;
  }

  /** A dropped request has been marked; a kept one is as it was. */
  lemma FilteredRequest(b: Batcher, n: nat, active: seq<nat>, requests: Store, known: set<nat>)
    requires Filtered(b, n, active, requests, known) && n < |b.running|
    ensures b.running[n] in requests && b.running[n] in b.requests
    ensures RequestOk(requests[b.running[n]]) && RequestOk(b.requests[b.running[n]])
    ensures var id := b.running[n];
      && (Keeps(requests, id) <==> Keeps(b.requests, id))
      && (requests[id].state == Finished || requests[id] == b.requests[id])
  {
    assert b.running[n] in b.requests;
  }

  lemma FilterOne(b: Batcher, n: nat)
    requires BatcherShape(b) && n < |b.running|
    ensures b.running[n] in b.requests && RequestOk(b.requests[b.running[n]])
    ensures var d, id := Dropped(b, n), b.running[n]; var k := Keeps(b.requests, id);
      && Dropped(b, n + 1) == d + (if k then {} else {id})
      && Drop(b.running[..n + 1], Dropped(b, n + 1)) == Drop(b.running[..n], d) + (if k then [id] else [])
  {
    hide BatcherShape, RequestOk;
    RunningListed(b, n);
    assert forall x :: x in b.running[..n] ==> x in b.running[..n + 1];
    DropNext(b.running, n, Dropped(b, n), Dropped(b, n + 1));
  }

  lemma RunningListed(b: Batcher, n: nat)
    requires BatcherShape(b) && n < |b.running|
    ensures b.running[n] in b.requests && RequestOk(b.requests[b.running[n]])
  {
  }

  lemma DropNext(s: seq<nat>, n: nat, d: set<nat>, d': set<nat>)
    requires n < |s| && forall x :: x in s[..n] ==> (x in d <==> x in d')
    ensures Drop(s[..n + 1], d') == Drop(s[..n], d) + if s[n] in d' then [] else [s[n]]
  {
    var r := s[..n + 1];
    assert r[..n] == s[..n] && r[n] == s[n];
    DropSame(s[..n], d, d');
  }

  lemma MarkMore(requests: Store, d: set<nat>, id: nat)
    requires id in requests
    ensures SetState(MarkFinished(requests, d), id, Finished) == MarkFinished(requests, d + {id})
  {
  }

  /** One more running request goes through the filter. */
  lemma FilteredNext(b: Batcher, n: nat, active: seq<nat>, requests: Store, known: set<nat>)
    requires Filtered(b, n, active, requests, known) && n < |b.running|
    ensures b.running[n] in b.requests && RequestOk(b.requests[b.running[n]])
    ensures var id := b.running[n];
      if Keeps(b.requests, id) then Filtered(b, n + 1, active + [id], requests, known)
      else Filtered(b, n + 1, active, SetState(requests, id, Finished), known - {id})
  {
    hide BatcherShape, Keeps, RequestOk;
    FilterOne(b, n);
    var d, id := Dropped(b, n), b.running[n];
    MarkMore(b.requests, d, id);
    assert b.known - d - {id} == b.known - (d + {id});
    assert d + {} == d;
    assert Drop(b.running[..n], d) + [] == Drop(b.running[..n], d);
  }

  /** What the loop does with the top of the queue, in terms of the fields. */
  lemma JudgeTop(b: Batcher, tokens: nat)
    requires Listed(b.requests, b.waiting) && b.waiting != [] && |b.running| < b.maxSeqs
    ensures var id := Top(b.requests, b.waiting); var r := b.requests[id]; var rest := Without(b.waiting, id);
      && Judge(b, tokens)
           == (if r.state == Finished then Skip else if tokens + |r.prompt| <= b.budget then Seat else Defer)
      && |rest| < |b.waiting|
      && Apply(b, Skip) == b.(waiting := rest)
      && Apply(b, Seat)
           == b.(waiting := rest, requests := SetState(b.requests, id, Running), running := b.running + [id])
      && Apply(b, Defer) == b.(waiting := rest + [id])
      && Listed(Apply(b, Skip).requests, Apply(b, Skip).waiting)
      && Listed(Apply(b, Seat).requests, Apply(b, Seat).waiting)
  {
    RestListed(b.requests, b.waiting, Top(b.requests, b.waiting));
  }

  lemma AdmitStep(b: Batcher, tokens: nat, prefill: seq<nat>)
    requires Listed(b.requests, b.waiting)
    ensures var v := Judge(b, tokens);
      && (v == Stop ==> Admit(b, tokens, prefill) == Scheduled(b, prefill, [], tokens, 0))
      && (v == Skip ==> Admit(b, tokens, prefill) == Admit(Apply(b, v), tokens, prefill))
      && (v == Seat ==> var id := Top(b.requests, b.waiting);
            Admit(b, tokens, prefill) == Admit(Apply(b, v), tokens + |b.requests[id].prompt|, prefill + [id]))
      && (v == Defer ==> Admit(b, tokens, prefill) == Scheduled(Apply(b, v), prefill, [], tokens, 0))
  {
    hide Listed, Judge, Apply, Top;
  }

  lemma ShapeListed(b: Batcher)
    requires BatcherShape(b)
    ensures Listed(b.requests, b.waiting)
  {
  }

  lemma AdmitStop(b: Batcher, tokens: nat, prefill: seq<nat>)
    requires Listed(b.requests, b.waiting) && (b.waiting == [] || |b.running| >= b.maxSeqs)
    ensures Admit(b, tokens, prefill) == Scheduled(b, prefill, [], tokens, 0)
  {
    assert Judge(b, tokens) == Stop;
  }

  /** The decode list, the tokens and the preempted count are set by the caller. */
  lemma ScheduleCases(b: Batcher)
    requires BatcherShape(b)
    ensures BatcherShape(Filter(b))
    ensures var b1 := Filter(b);
      if |b1.running| <= b1.budget then Schedule(b) == Admit(b1, |b1.running|, []).(decode := b1.running)
      else
        BatcherShape(Preempt(b1)) &&
        Schedule(b) == Admit(Preempt(b1), b1.budget, []).(decode := b1.running[..b1.budget], preempted := 1)
  {
    FilterShape(b);
    if |Filter(b).running| > b.budget {
      PreemptShape(Filter(b));
    }
  }

  class ContinuousBatcher {
    const maxSeqs: nat
    const budget: nat
    var requests: Store
    var waiting: seq<nat>
    var running: seq<nat>
    var known: set<nat>

    ghost function View(): Batcher
      reads this
    {
      Batcher(maxSeqs, budget, requests, waiting, running, known)
    }

    constructor (maxSeqs: nat, budget: nat)
      ensures View() == Batcher(maxSeqs, budget, map[], [], [], {})
    {
      this.maxSeqs, this.budget := maxSeqs, budget;
      requests, waiting, running, known := map[], [], [], {};
    }

    method AddRequest(id: nat, r: Request) returns (ok: bool)
      modifies this
      ensures (ok, View()) == Add(old(View()), id, r)
    {
      if r.prompt == [] || id in known {
        return false;
      }
      requests := requests[id := r.(state := Waiting)];
      known := known + {id};
      waiting := waiting + [id];
      ok := true;
    }

    method CancelRequest(id: nat) returns (ok: bool)
      requires known <= requests.Keys
      modifies this
      ensures (ok, View()) == Cancel(old(View()), id)
    {
      if id !in known {
        return false;
      }
      requests := SetState(requests, id, Finished);
      running := Drop(running, {id});
      known := known - {id};
      ok := true;
    }

    method UpdateRequestsState(finished: seq<nat>)
      requires known <= requests.Keys
      modifies this
      ensures View() == Finish(old(View()), finished)
    {
      var i := 0;
      while i < |finished|
        invariant 0 <= i <= |finished| && known <= requests.Keys
        invariant View() == Finish(old(View()), finished[..i])
      {
        var id := finished[i];
        assert finished[..i + 1][..i] == finished[..i];
        if id in known {
          requests := SetState(requests, id, Finished);
        }
        i := i + 1;
      }
      assert finished[..i] == finished;
    }

    /** Step 1: finished requests leave the running list and the request map. */
    method FilterRunning()
      requires BatcherShape(View())
      modifies this
      ensures View() == Filter(old(View()))
    {
      ghost var b := View();
      var active: seq<nat> := [];
      var i := 0;
      FilteredNone(b);
      while i < |running|
        invariant 0 <= i <= |running| && View() == b.(requests := requests, known := known)
        invariant Filtered(b, i, active, requests, known)
      {
        var id := running[i];
        FilteredRequest(b, i, active, requests, known);
        FilteredNext(b, i, active, requests, known);
        hide Filtered, Keeps, RequestOk;
        if Keeps(requests, id) {
          active := active + [id];
        } else {
          requests := SetState(requests, id, Finished);
          known := known - {id};
        }
        i := i + 1;
      }
      FilteredAll(b, active, requests, known);
      running := active;
    }

    /** Backpressure: preempts one request; the sort is by ascending priority. */
    method PreemptRequests(required: nat) returns (preempted: nat)
      requires BatcherShape(View())
      modifies this
      ensures old(running) != [] && required > 0 ==> preempted == 1 && View() == Preempt(old(View()))
      ensures old(running) == [] || required == 0 ==>
        preempted == 0 && View() == old(View()).(running := SortByPriority(old(requests), old(running)))
    {
      running := SortByPriority(requests, running);
      preempted := 0;
      if running != [] && required > 0 {
        var id := running[0];
        running := running[1..];
        requests := SetState(requests, id, Preempted);
        waiting := waiting + [id];
        preempted := preempted + 1;
      }
    }

    method ScheduleStep() returns (prefill: seq<nat>, decode: seq<nat>, tokens: nat, preempted: nat)
      requires BatcherShape(View())
      modifies this
      ensures Scheduled(View(), prefill, decode, tokens, preempted) == Schedule(old(View()))
    {
      hide BatcherShape, Filter, Preempt, Schedule, Admit;
      ScheduleCases(View());
      FilterRunning();
      ghost var b1 := View();
      decode, tokens, preempted := [], 0, 0;
      var i := 0;
      while i < |running|
        invariant 0 <= i <= |running| && View() == b1 && preempted == 0
        invariant tokens == i <= budget && decode == running[..i]
      {
        if tokens + 1 <= budget {
          decode := decode + [running[i]];
          tokens := tokens + 1;
          i := i + 1;
        } else {
          preempted := PreemptRequests(1);
          break;
        }
      }
      assert preempted == 0 ==> decode == running;
      prefill, tokens := AdmitWaiting(tokens);
    }

    /** Step 3: admits waiting requests while seats and tokens last. */
    method AdmitWaiting(start: nat) returns (prefill: seq<nat>, tokens: nat)
      requires BatcherShape(View())
      modifies this
      ensures Scheduled(View(), prefill, [], tokens, 0) == Admit(old(View()), start, [])
    {
      hide Admit, Judge, Apply, Listed, Top, BatcherShape, Without, SetState;
      ghost var b := View();
      ShapeListed(b);
      prefill, tokens := [], start;
      var deferred: seq<nat> := [];
      while waiting != [] && |running| < maxSeqs
        invariant Listed(requests, waiting) && deferred == [] && View() == b
        invariant Admit(b, tokens, prefill) == Admit(old(View()), start, [])
        decreases |waiting|
      {
        JudgeTop(b, tokens);
        AdmitStep(b, tokens, prefill);
        var candidate := Top(requests, waiting);
        waiting := Without(waiting, candidate);
        if requests[candidate].state == Finished {
          b := View();
          continue;
        }
        var promptLen := |requests[candidate].prompt|;
        if tokens + promptLen <= budget {
          requests := SetState(requests, candidate, Running);
          prefill := prefill + [candidate];
          running := running + [candidate];
          tokens := tokens + promptLen;
          b := View();
        } else {
          deferred := deferred + [candidate];
          break;
        }
      }
      if deferred == [] {
        AdmitStop(b, tokens, prefill);
      }
      waiting := waiting + deferred;
      assert waiting + [] == waiting;
    }
  }
}
